/**
 `esc` and `sample` of `src/http.rs`: label values of the Prometheus text
 exposition format. Three chained global replacements act as one encoding of
 single characters that a reader can invert, so a page of samples built from any
 label values reads back sample by sample.
 */
module Labels {
  import opened World

  // ── the escaper ───────────────────────────────────────────────────────────

  /** Every occurrence of `c` replaced by `with`. */
  function Replace(s: string, c: char, with: string): string {
    if s == "" then ""
    else (if s[0] == c then with else [s[0]]) + Replace(s[1..], c, with)
  }

  predicate NeedsEscape(s: string) {
    exists c | c in s :: c == '\\' || c == '"' || c == '\n'
  }

  function Esc(s: string): string {
    if NeedsEscape(s) then Replace(Replace(Replace(s, '\\', "\\\\"), '"', "\\\""), '\n', "\\n") else s
  }

  /** What the format asks for, a character at a time. */
  function EscapedChar(c: char): string {
    if c == '\\' then "\\\\" else if c == '"' then "\\\"" else if c == '\n' then "\\n" else [c]
  }

  function Escaped(s: string): string {
    if s == "" then "" else EscapedChar(s[0]) + Escaped(s[1..])
  }

  // ── the reader ────────────────────────────────────────────────────────────

  /** A label value after its opening quote: the value, and what follows the
      closing quote. */
  function ReadQuoted(s: string): (r: Option<(string, string)>)
    ensures r.Some? ==> |r.value.1| < |s|
  {
    if s == "" || s[0] == '\n' then None
    else if s[0] == '"' then Some(("", s[1..]))
    else if s[0] != '\\' then Prefixed(s[0], ReadQuoted(s[1..]))
    else if |s| == 1 then None
    else if s[1] == 'n' then Prefixed('\n', ReadQuoted(s[2..]))
    else if s[1] == '\\' || s[1] == '"' then Prefixed(s[1], ReadQuoted(s[2..]))
    else None
  }

  function Prefixed(c: char, r: Option<(string, string)>): Option<(string, string)> {
    match r
    case Some((value, rest)) => Some(([c] + value, rest))
    case None => None
  }

  // ── one encoding ──────────────────────────────────────────────────────────

  lemma {:induction false} ReplaceConcat(a: string, b: string, c: char, with: string)
    ensures Replace(a + b, c, with) == Replace(a, c, with) + Replace(b, c, with)
  {
    if a == "" {
      assert a + b == b;
    } else {
      assert (a + b)[1..] == a[1..] + b;
      ReplaceConcat(a[1..], b, c, with);
    }
  }

  /** The order of the replacements matters: the backslashes that the later ones
      add are not escaped again. */
  lemma {:induction false} ChainIsOneEncoding(s: string)
    ensures Replace(Replace(Replace(s, '\\', "\\\\"), '"', "\\\""), '\n', "\\n") == Escaped(s)
  {
    if s != "" {
      ChainIsOneEncoding(s[1..]);
      var a := if s[0] == '\\' then "\\\\" else [s[0]];
      var b := if s[0] == '"' then "\\\"" else a;
      var rest := Replace(s[1..], '\\', "\\\\");
      ReplaceConcat(a, rest, '"', "\\\"");
      assert Replace(a, '"', "\\\"") == b;
      ReplaceConcat(b, Replace(rest, '"', "\\\""), '\n', "\\n");
      assert Replace(b, '\n', "\\n") == EscapedChar(s[0]);
    }
  }

  lemma {:induction false} NothingToEscape(s: string)
    requires !NeedsEscape(s)
    ensures Escaped(s) == s
  {
    if s != "" {
      assert s[0] in s && forall c | c in s[1..] :: c in s;
      NothingToEscape(s[1..]);
    }
  }

  /** The chained replacements, with their early return, are the encoding. */
  lemma EscIsTheEncoding(s: string)
    ensures Esc(s) == Escaped(s)
  {
    if NeedsEscape(s) {
      ChainIsOneEncoding(s);
    } else {
      NothingToEscape(s);
    }
  }

  lemma {:induction false} NoRawNewline(s: string)
    ensures '\n' !in Escaped(s)
  {
    if s != "" {
      NoRawNewline(s[1..]);
    }
  }

  lemma CharReadsBack(c: char, tail: string)
    ensures ReadQuoted(EscapedChar(c) + tail) == Prefixed(c, ReadQuoted(tail))
  {
    assert (EscapedChar(c) + tail)[|EscapedChar(c)|..] == tail;
  }

  lemma QuoteCloses(rest: string)
    ensures ReadQuoted("" + ("\"" + rest)) == Some(("", rest))
  {
    assert "" + ("\"" + rest) == "\"" + rest;
    assert ("\"" + rest)[1..] == rest;
  }

  lemma {:induction false} EscapedReadsBack(s: string, rest: string)
    ensures ReadQuoted(Escaped(s) + ("\"" + rest)) == Some((s, rest))
  {
    hide ReadQuoted, EscapedChar;
    if s == "" {
      QuoteCloses(rest);
    } else {
      var close := "\"" + rest;
      var tail := Escaped(s[1..]) + close;
      EscapedReadsBack(s[1..], rest);
      CharReadsBack(s[0], tail);
      assert Escaped(s) + close == EscapedChar(s[0]) + tail;
      assert s == [s[0]] + s[1..];
    }
  }

  /** For every value: no raw newline, and the first unescaped quote after the
      escaped text is the one that closes it, so the value reads back whatever
      follows. */
  lemma EscReadsBack(s: string, rest: string)
    ensures '\n' !in Esc(s)
    ensures ReadQuoted(Esc(s) + ("\"" + rest)) == Some((s, rest))
  {
    EscIsTheEncoding(s);
    NoRawNewline(s);
    EscapedReadsBack(s, rest);
  }

  /** Nothing but the escaper's output reads as a value: the encoding is onto the
      quoted texts the reader accepts. */
  lemma {:induction false} OnlyEscapedTextReads(t: string)
    requires ReadQuoted(t).Some?
    ensures t == Escaped(ReadQuoted(t).value.0) + ("\"" + ReadQuoted(t).value.1)
  {
    var (s, rest) := ReadQuoted(t).value;
    if t[0] == '"' {
      assert t == "\"" + rest;
    } else if t[0] != '\\' {
      OnlyEscapedTextReads(t[1..]);
      assert s[1..] == ReadQuoted(t[1..]).value.0;
      assert t == [t[0]] + t[1..];
    } else {
      OnlyEscapedTextReads(t[2..]);
      assert s[1..] == ReadQuoted(t[2..]).value.0;
      assert t == t[..2] + t[2..] && t[..2] == EscapedChar(s[0]);
    }
  }

  // ── sample lines ──────────────────────────────────────────────────────────

  datatype Sample = Sample(name: string, labels: seq<(string, string)>, value: string)

  function LabelText(pair: (string, string)): string {
    pair.0 + "=\"" + Esc(pair.1) + "\""
  }

  /** The labels in order, separated by commas. */
  function LabelsText(labels: seq<(string, string)>): string {
    if labels == [] then ""
    else if |labels| == 1 then LabelText(labels[0])
    else LabelsText(labels[..|labels| - 1]) + "," + LabelText(labels[|labels| - 1])
  }

  function SampleText(s: Sample): string {
    if s.labels == [] then s.name + " " + s.value + "\n"
    else s.name + "{" + LabelsText(s.labels) + "} " + s.value + "\n"
  }

  lemma LabelsGrow(labels: seq<(string, string)>, i: nat)
    requires i < |labels|
    ensures LabelsText(labels[..i + 1])
         == LabelsText(labels[..i]) + (if i > 0 then "," else "") + LabelText(labels[i])
  {
    assert labels[..i + 1][..i] == labels[..i];
  }

  /** Append one sample line to the page. */
  method AppendSample(page: string, s: Sample) returns (o: string)
    ensures o == page + SampleText(s)
  {
    if s.labels == [] {
      return page + (s.name + " " + s.value + "\n");
    }
    o := page + s.name + "{";
    for i := 0 to |s.labels|
      invariant o == page + s.name + "{" + LabelsText(s.labels[..i])
    {
      hide LabelsText, Esc;
      LabelsGrow(s.labels, i);
      if i > 0 {
        o := o + ",";
      }
      o := o + (s.labels[i].0 + "=\"" + Esc(s.labels[i].1) + "\"");
    }
    assert s.labels[..|s.labels|] == s.labels;
    o := o + "} " + s.value + "\n";
  }

  predicate NameChar(c: char) {
    'a' <= c <= 'z' || 'A' <= c <= 'Z' || '0' <= c <= '9' || c == '_' || c == ':'
  }

  predicate Name(s: string) {
    s != "" && forall c | c in s :: NameChar(c)
  }

  /** What every call site passes: identifiers for the name and the keys, and a
      value printed on one line. The label values are arbitrary. */
  predicate WellNamed(s: Sample) {
    Name(s.name) && (forall pair | pair in s.labels :: Name(pair.0)) && '\n' !in s.value
  }

  /** The longest identifier in front, and the rest. */
  function ReadName(s: string): (r: (string, string))
    ensures |r.1| <= |s|
  {
    if s == "" || !NameChar(s[0]) then ("", s)
    else var (name, rest) := ReadName(s[1..]); ([s[0]] + name, rest)
  }

  /** The text up to the end of the line, and the lines after it. */
  function ReadLine(s: string): Option<(string, string)> {
    if s == "" then None
    else if s[0] == '\n' then Some(("", s[1..]))
    else Prefixed(s[0], ReadLine(s[1..]))
  }

  function ReadLabels(s: string): Option<(seq<(string, string)>, string)>
    decreases |s|
  {
    var (key, afterKey) := ReadName(s);
    if |afterKey| < 2 || afterKey[..2] != "=\"" then None
    else match ReadQuoted(afterKey[2..])
      case None => None
      case Some((value, rest)) =>
        if rest == "" then None
        else if rest[0] == '}' then Some(([(key, value)], rest[1..]))
        else if rest[0] != ',' then None
        else match ReadLabels(rest[1..])
          case None => None
          case Some((labels, after)) => Some(([(key, value)] + labels, after))
  }

  /** One sample from the front of a page, and the rest of the page. */
  function ReadSample(page: string): Option<(Sample, string)> {
    var (name, rest) := ReadName(page);
    var labelled := if rest != "" && rest[0] == '{' then ReadLabels(rest[1..]) else Some(([], rest));
    match labelled
    case None => None
    case Some((labels, after)) =>
      if after == "" || after[0] != ' ' then None
      else match ReadLine(after[1..])
        case None => None
        case Some((value, next)) => Some((Sample(name, labels, value), next))
  }

  lemma {:induction false} NameReadsBack(name: string, rest: string)
    requires forall c | c in name :: NameChar(c)
    requires rest != "" && !NameChar(rest[0])
    ensures ReadName(name + rest) == (name, rest)
  {
    if name == "" {
      assert name + rest == rest;
    } else {
      NameReadsBack(name[1..], rest);
      assert (name + rest)[1..] == name[1..] + rest;
      assert name == [name[0]] + name[1..];
    }
  }

  lemma {:induction false} LineReadsBack(line: string, rest: string)
    requires '\n' !in line
    ensures ReadLine(line + ("\n" + rest)) == Some((line, rest))
  {
    if line == "" {
      assert line + ("\n" + rest) == "\n" + rest;
    } else {
      LineReadsBack(line[1..], rest);
      assert (line + ("\n" + rest))[1..] == line[1..] + ("\n" + rest);
      assert line == [line[0]] + line[1..];
    }
  }

  lemma {:induction false} LabelsFromTheFront(labels: seq<(string, string)>)
    requires |labels| > 1
    ensures LabelsText(labels) == LabelText(labels[0]) + ("," + LabelsText(labels[1..]))
  {
    var n := |labels| - 1;
    if n > 1 {
      hide LabelText;
      LabelsFromTheFront(labels[..n]);
      assert labels[..n][1..] == labels[1..][..n - 1];
    } else {
      assert labels[..1] == [labels[0]] && labels[1..] == [labels[1]];
    }
  }

  /** One label followed by `,` or `}`. */
  lemma LabelReadsBack(pair: (string, string), rest: string)
    requires Name(pair.0)
    ensures var (key, after) := ReadName(LabelText(pair) + rest);
      key == pair.0 && |after| >= 2 && after[..2] == "=\"" && ReadQuoted(after[2..]) == Some((pair.1, rest))
  {
    var quoted := Esc(pair.1) + ("\"" + rest);
    assert LabelText(pair) + rest == pair.0 + ("=\"" + quoted);
    NameReadsBack(pair.0, "=\"" + quoted);
    assert ("=\"" + quoted)[2..] == quoted;
    EscReadsBack(pair.1, rest);
  }

  lemma {:induction false} LabelsReadBack(labels: seq<(string, string)>, rest: string)
    requires labels != [] && forall pair | pair in labels :: Name(pair.0)
    ensures ReadLabels(LabelsText(labels) + ("}" + rest)) == Some((labels, rest))
    decreases |labels|
  {
    hide LabelText, ReadName, ReadQuoted, Name, Esc;
    if |labels| == 1 {
      LabelReadsBack(labels[0], "}" + rest);
      assert labels == [labels[0]];
    } else {
      var tail := LabelsText(labels[1..]) + ("}" + rest);
      LabelsFromTheFront(labels);
      assert LabelsText(labels) + ("}" + rest) == LabelText(labels[0]) + ("," + tail);
      LabelReadsBack(labels[0], "," + tail);
      LabelsReadBack(labels[1..], rest);
      assert ("," + tail)[1..] == tail;
      assert labels == [labels[0]] + labels[1..];
    }
  }

  /** A sample reads back from the front of any page: name, every label value and
      the printed number, with the rest of the page untouched. */
  lemma SampleReadsBack(s: Sample, rest: string)
    requires WellNamed(s)
    ensures ReadSample(SampleText(s) + rest) == Some((s, rest))
  {
    hide ReadName, ReadLabels, ReadLine, LabelsText, NameChar;
    var tail := " " + (s.value + ("\n" + rest));
    assert tail[1..] == s.value + ("\n" + rest);
    LineReadsBack(s.value, rest);
    if s.labels == [] {
      assert SampleText(s) + rest == s.name + tail;
      NameStops(s.name, tail);
    } else {
      var inner := LabelsText(s.labels) + ("}" + tail);
      assert SampleText(s) + rest == s.name + ("{" + inner);
      NameStops(s.name, "{" + inner);
      LabelsReadBack(s.labels, tail);
      assert ("{" + inner)[1..] == inner;
    }
  }

  lemma NameStops(name: string, rest: string)
    requires Name(name) && rest != "" && rest[0] in {' ', '{'}
    ensures ReadName(name + rest) == (name, rest)
  {
    NameReadsBack(name, rest);
  }

  // ── whole pages ───────────────────────────────────────────────────────────

  function PageText(samples: seq<Sample>): string {
    if samples == [] then "" else SampleText(samples[0]) + PageText(samples[1..])
  }

  function ReadPage(page: string, count: nat): Option<seq<Sample>>
    decreases count
  {
    if count == 0 then (if page == "" then Some([]) else None)
    else match ReadSample(page)
      case None => None
      case Some((s, rest)) =>
        match ReadPage(rest, count - 1)
        case None => None
        case Some(others) => Some([s] + others)
  }

  /** A page of samples reads back exactly, whatever the label values. */
  lemma {:induction false} PageReadsBack(samples: seq<Sample>)
    requires forall s | s in samples :: WellNamed(s)
    ensures ReadPage(PageText(samples), |samples|) == Some(samples)
  {
    if samples != [] {
      hide ReadSample, SampleText, WellNamed;
      SampleReadsBack(samples[0], PageText(samples[1..]));
      PageReadsBack(samples[1..]);
      assert samples == [samples[0]] + samples[1..];
    }
  }

  lemma {:induction false} LabelsStayOnTheLine(labels: seq<(string, string)>)
    requires forall pair | pair in labels :: Name(pair.0)
    ensures '\n' !in LabelsText(labels)
  {
    if labels != [] {
      var last := labels[|labels| - 1];
      EscReadsBack(last.1, "");
      LabelsStayOnTheLine(labels[..|labels| - 1]);
    }
  }

  /** A sample is one line: its only newline is its last character. */
  lemma SampleIsOneLine(s: Sample)
    requires WellNamed(s)
    ensures var text := SampleText(s); text[|text| - 1] == '\n' && '\n' !in text[..|text| - 1]
  {
    LabelsStayOnTheLine(s.labels);
    hide LabelsText;
    var text := SampleText(s);
    assert text[..|text| - 1] == if s.labels == [] then s.name + " " + s.value
      else s.name + "{" + LabelsText(s.labels) + "} " + s.value;
  }
}
