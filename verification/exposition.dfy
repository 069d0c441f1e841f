/** The Prometheus text exposition format, version 0.0.4, as far as labelled integer samples go: its writer's
    pieces, a reader for it, and the reader undoing the writer. */
module Exposition {
  import opened Text

  datatype Label = Label(name: string, value: string)

  datatype Sample = Sample(metric: string, labels: seq<Label>, value: nat)

  // ---- Writing ----

  function EscapeChar(c: char): string {
    if c == '\\' then "\\\\" else if c == '\n' then "\\n" else if c == '"' then "\\\"" else [c]
  }

  /** The format's escaping of a label value, one character at a time. */
  function Escape(s: string): string { if s == "" then "" else EscapeChar(s[0]) + Escape(s[1..]) }

  function Decimal(n: nat): string {
    if n < 10 then [DigitChar(n)] else Decimal(n / 10) + [DigitChar(n % 10)]
  }

  function LabelText(pair: Label): string { pair.name + ("=" + ("\"" + (Escape(pair.value) + "\""))) }

  function LabelsText(labels: seq<Label>): string {
    if labels == [] then ""
    else if |labels| == 1 then LabelText(labels[0])
    else LabelText(labels[0]) + ("," + LabelsText(labels[1..]))
  }

  function SampleText(x: Sample): string {
    x.metric + ("{" + (LabelsText(x.labels) + ("}" + (" " + Decimal(x.value)))))
  }

  /** Every line ended by a line feed. */
  function Unlines(lines: seq<string>): string {
    if lines == [] then "" else lines[0] + ("\n" + Unlines(lines[1..]))
  }

  // ---- Reading ----

  /** What stands before the first `mark`, and what stands after it. */
  function Until(s: string, mark: char): (r: Option<(string, string)>)
    ensures r.Some? ==> |r.value.1| < |s|
  {
    if s == "" then None
    else if s[0] == mark then Some(("", s[1..]))
    else
      match Until(s[1..], mark)
      case None => None
      case Some((before, after)) => Some(([s[0]] + before, after))
  }

  /** A label value up to its closing quote, unescaped, and what follows the quote. */
  function Unescape(s: string): (r: Option<(string, string)>)
    ensures r.Some? ==> |r.value.1| < |s|
  {
    if s == "" then None
    else if s[0] == '"' then Some(("", s[1..]))
    else if s[0] == '\\' then
      if |s| < 2 || s[1] !in "\\n\"" then None
      else
        match Unescape(s[2..])
        case None => None
        case Some((value, rest)) => Some(([if s[1] == 'n' then '\n' else s[1]] + value, rest))
    else
      match Unescape(s[1..])
      case None => None
      case Some((value, rest)) => Some(([s[0]] + value, rest))
  }

  predicate IsDigit(c: char) { '0' <= c <= '9' }

  function ReadNat(s: string): Option<nat> {
    if s == "" || !IsDigit(s[|s| - 1]) then None
    else
      var d := s[|s| - 1] as int - '0' as int;
      if |s| == 1 then Some(d)
      else
        match ReadNat(s[..|s| - 1])
        case None => None
        case Some(n) => Some(10 * n + d)
  }

  /** Labels up to the closing brace, and what follows it. */
  function ReadLabels(s: string): Option<(seq<Label>, string)>
    decreases |s|
  {
    match Until(s, '=')
    case None => None
    case Some((name, quoted)) =>
      if quoted == "" || quoted[0] != '"' then None
      else
        match Unescape(quoted[1..])
        case None => None
        case Some((value, rest)) =>
          if rest == "" then None
          else if rest[0] == '}' then Some(([Label(name, value)], rest[1..]))
          else if rest[0] != ',' then None
          else
            match ReadLabels(rest[1..])
            case None => None
            case Some((labels, after)) => Some(([Label(name, value)] + labels, after))
  }

  function ReadSample(line: string): Option<Sample> {
    match Until(line, '{')
    case None => None
    case Some((metric, inner)) =>
      match ReadLabels(inner)
      case None => None
      case Some((labels, rest)) =>
        if rest == "" || rest[0] != ' ' then None
        else
          match ReadNat(rest[1..])
          case None => None
          case Some(value) => Some(Sample(metric, labels, value))
  }

  function ReadLines(text: string): Option<seq<string>>
    decreases |text|
  {
    if text == "" then Some([])
    else
      match Until(text, '\n')
      case None => None
      case Some((line, rest)) =>
        match ReadLines(rest)
        case None => None
        case Some(lines) => Some([line] + lines)
  }

  predicate IsComment(line: string) { line != "" && line[0] == '#' }

  function ReadSamples(lines: seq<string>): Option<seq<Sample>> {
    if lines == [] then Some([])
    else
      match ReadSamples(lines[1..])
      case None => None
      case Some(rest) =>
        if IsComment(lines[0]) then Some(rest)
        else
          match ReadSample(lines[0])
          case None => None
          case Some(x) => Some([x] + rest)
  }

  /** Every sample of an exposition, in order; `None` when a line is malformed. */
  function Read(text: string): Option<seq<Sample>> {
    match ReadLines(text)
    case None => None
    case Some(lines) => ReadSamples(lines)
  }

  // ---- Reading undoes writing ----

  lemma Regroup(a: string, b: string, c: string)
    ensures (a + b) + c == a + (b + c)
  {
  }

  lemma OneLine(a: string, b: string)
    requires '\n' !in a && '\n' !in b
    ensures '\n' !in a + b
  {
  }

  lemma {:induction false} UntilFinds(a: string, mark: char, b: string)
    requires mark !in a
    ensures Until(a + ([mark] + b), mark) == Some((a, b))
  {
    if a == "" {
      assert a + ([mark] + b) == [mark] + b;
    } else {
      assert (a + ([mark] + b))[1..] == a[1..] + ([mark] + b);
      UntilFinds(a[1..], mark, b);
      assert [a[0]] + a[1..] == a;
    }
  }

  lemma UnescapeOne(c: char, tail: string, value: string, rest: string)
    requires Unescape(tail) == Some((value, rest))
    ensures Unescape(EscapeChar(c) + tail) == Some(([c] + value, rest))
  {
    var head := EscapeChar(c);
    assert (head + tail)[|head|..] == tail && (head + tail)[0] == head[0];
    if |head| == 2 { assert (head + tail)[1] == head[1]; }
  }

  /** No label value can close its own quotes, and none is changed on the way. */
  lemma {:induction false} UnescapeEscape(value: string, rest: string)
    ensures Unescape(Escape(value) + ("\"" + rest)) == Some((value, rest))
  {
    if value == "" {
      assert Escape(value) + ("\"" + rest) == "\"" + rest;
    } else {
      UnescapeEscape(value[1..], rest);
      hide Unescape, EscapeChar;
      UnescapeOne(value[0], Escape(value[1..]) + ("\"" + rest), value[1..], rest);
      Regroup(EscapeChar(value[0]), Escape(value[1..]), "\"" + rest);
      assert [value[0]] + value[1..] == value;
    }
  }

  lemma {:induction false} EscapeOneLine(value: string)
    ensures '\n' !in Escape(value)
  {
    if value != "" { EscapeOneLine(value[1..]); }
  }

  lemma {:induction false} ReadDecimal(n: nat)
    ensures ReadNat(Decimal(n)) == Some(n)
    ensures forall c :: c in Decimal(n) ==> IsDigit(c)
  {
    if n >= 10 {
      ReadDecimal(n / 10);
      assert Decimal(n)[..|Decimal(n)| - 1] == Decimal(n / 10);
    }
  }

  predicate PlainLabel(pair: Label) { '=' !in pair.name && '\n' !in pair.name }

  lemma ReadLabel(pair: Label, rest: string)
    requires PlainLabel(pair)
    ensures Until(LabelText(pair) + rest, '=') == Some((pair.name, "\"" + (Escape(pair.value) + ("\"" + rest))))
    ensures Unescape(Escape(pair.value) + ("\"" + rest)) == Some((pair.value, rest))
  {
    hide Until, Escape, Unescape;
    var quoted := "\"" + (Escape(pair.value) + ("\"" + rest));
    assert LabelText(pair) + rest == pair.name + ("=" + quoted);
    UntilFinds(pair.name, '=', quoted);
    UnescapeEscape(pair.value, rest);
  }

  lemma ReadLastLabel(pair: Label, rest: string)
    requires PlainLabel(pair)
    ensures ReadLabels(LabelText(pair) + ("}" + rest)) == Some(([pair], rest))
  {
    hide Until, Unescape, Escape, LabelText;
    ReadLabel(pair, "}" + rest);
    var quoted := Escape(pair.value) + ("\"" + ("}" + rest));
    assert ("\"" + quoted)[1..] == quoted && ("}" + rest)[1..] == rest;
  }

  lemma ReadOneMore(pair: Label, labels: seq<Label>, after: string, rest: string)
    requires PlainLabel(pair) && ReadLabels(after) == Some((labels, rest))
    ensures ReadLabels(LabelText(pair) + ("," + after)) == Some(([pair] + labels, rest))
  {
    hide Until, Unescape, Escape, LabelText;
    ReadLabel(pair, "," + after);
    var quoted := Escape(pair.value) + ("\"" + ("," + after));
    assert ("\"" + quoted)[1..] == quoted && ("," + after)[1..] == after;
  }

  lemma {:induction false} ReadLabelsText(labels: seq<Label>, rest: string)
    requires labels != [] && forall pair :: pair in labels ==> PlainLabel(pair)
    ensures ReadLabels(LabelsText(labels) + ("}" + rest)) == Some((labels, rest))
  {
    hide ReadLabels, LabelText, PlainLabel;
    if |labels| == 1 {
      ReadLastLabel(labels[0], rest);
      assert labels == [labels[0]];
    } else {
      var more := LabelsText(labels[1..]);
      var after := more + ("}" + rest);
      assert forall pair :: pair in labels[1..] ==> pair in labels;
      ReadLabelsText(labels[1..], rest);
      ReadOneMore(labels[0], labels[1..], after, rest);
      Regroup(LabelText(labels[0]), "," + more, "}" + rest);
      Regroup(",", more, "}" + rest);
      assert labels == [labels[0]] + labels[1..];
    }
  }

  lemma {:induction false} LabelsOneLine(labels: seq<Label>)
    requires labels != [] && forall pair :: pair in labels ==> PlainLabel(pair)
    ensures '\n' !in LabelsText(labels)
  {
    var first := labels[0];
    EscapeOneLine(first.value);
    assert PlainLabel(first) && '\n' !in LabelText(first);
    hide LabelText, PlainLabel;
    if |labels| > 1 {
      assert forall pair :: pair in labels[1..] ==> pair in labels;
      LabelsOneLine(labels[1..]);
    }
  }

  predicate PlainSample(x: Sample) {
    && x.metric != "" && x.metric[0] != '#' && '{' !in x.metric && '\n' !in x.metric
    && x.labels != [] && forall pair :: pair in x.labels ==> PlainLabel(pair)
  }

  lemma SampleOneLine(x: Sample)
    requires PlainSample(x)
    ensures '\n' !in SampleText(x) && !IsComment(SampleText(x))
  {
    LabelsOneLine(x.labels);
    ReadDecimal(x.value);
    var digits, labels := Decimal(x.value), LabelsText(x.labels);
    assert '\n' !in digits;
    hide Decimal, LabelsText, ReadNat;
    OneLine(" ", digits);
    OneLine("}", " " + digits);
    OneLine(labels, "}" + (" " + digits));
    OneLine("{", labels + ("}" + (" " + digits)));
    OneLine(x.metric, "{" + (labels + ("}" + (" " + digits))));
    assert SampleText(x)[0] == x.metric[0];
  }

  /** A written sample is one line, is no comment, and reads back as itself. */
  lemma ReadSampleText(x: Sample)
    requires PlainSample(x)
    ensures ReadSample(SampleText(x)) == Some(x)
    ensures '\n' !in SampleText(x) && !IsComment(SampleText(x))
  {
    SampleOneLine(x);
    ReadDecimal(x.value);
    hide Until, ReadLabels, ReadNat, LabelsText, Decimal, IsComment;
    var tail := " " + Decimal(x.value);
    UntilFinds(x.metric, '{', LabelsText(x.labels) + ("}" + tail));
    ReadLabelsText(x.labels, tail);
    assert tail[1..] == Decimal(x.value);
  }

  predicate OneLiners(lines: seq<string>) { forall line :: line in lines ==> '\n' !in line }

  lemma {:induction false} ReadUnlines(lines: seq<string>)
    requires OneLiners(lines)
    ensures ReadLines(Unlines(lines)) == Some(lines)
  {
    if lines != [] {
      ReadUnlines(lines[1..]);
      UntilFinds(lines[0], '\n', Unlines(lines[1..]));
      assert lines == [lines[0]] + lines[1..];
    }
  }

  lemma {:induction false} ReadSamplesAppend(a: seq<string>, b: seq<string>)
    requires ReadSamples(a).Some? && ReadSamples(b).Some?
    ensures ReadSamples(a + b) == Some(ReadSamples(a).value + ReadSamples(b).value)
  {
    hide ReadSample, IsComment;
    if a == [] {
      assert a + b == b;
      assert ReadSamples(a).value + ReadSamples(b).value == ReadSamples(b).value;
    } else {
      assert (a + b)[1..] == a[1..] + b && (a + b)[0] == a[0];
      ReadSamplesAppend(a[1..], b);
      assert ReadSamples((a + b)[1..]) == ReadSamples(a[1..] + b);
      if !IsComment(a[0]) {
        var x := [ReadSample(a[0]).value];
        var more, last := ReadSamples(a[1..]).value, ReadSamples(b).value;
        assert (x + more) + last == x + (more + last);
      }
    }
  }

  lemma ReadOneSample(line: string, x: Sample)
    requires !IsComment(line) && ReadSample(line) == Some(x)
    ensures ReadSamples([line]) == Some([x])
  {
    hide ReadSample, IsComment;
    assert [line][1..] == [] && [x] + [] == [x];
  }

  lemma ReadComments(a: string, b: string)
    requires IsComment(a) && IsComment(b)
    ensures ReadSamples([a, b]) == Some([])
  {
    hide ReadSample, IsComment;
    assert [a, b][1..] == [b] && [b][1..] == [];
    assert ReadSamples([b][1..]) == Some([]);
  }

  // ---- Looking a sample up ----

  function Find(samples: seq<Sample>, metric: string, labels: seq<Label>): Option<nat> {
    if samples == [] then None
    else
      var last := samples[|samples| - 1];
      if last.metric == metric && last.labels == labels then Some(last.value)
      else Find(samples[..|samples| - 1], metric, labels)
  }

  lemma {:induction false} FindAppend(a: seq<Sample>, b: seq<Sample>, metric: string, labels: seq<Label>)
    ensures Find(a + b, metric, labels)
      == if Find(b, metric, labels).Some? then Find(b, metric, labels) else Find(a, metric, labels)
  {
    if b == [] {
      assert a + b == a;
    } else {
      assert (a + b)[..|a + b| - 1] == a + b[..|b| - 1];
      FindAppend(a, b[..|b| - 1], metric, labels);
    }
  }
}
