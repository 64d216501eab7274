/** The structured narrative the legacy pipeline asks the backend for, the
    degraded structure built when the reply is not JSON, and `_as_text`, which
    renders either to the text returned to the client. */
module Narration {
  import opened Common
  import opened Text

  /** `approx_km_from_start`: absent, a number (Python `int`, `float`, or
      `bool`, which is an `int`), carried with its `str()` rendering, or a
      value of another type. */
  datatype Km = NoKm | Numeric(shown: string) | NonNumeric

  /** One `{name, why, approx_km_from_start?}` entry. */
  datatype Highlight = Highlight(name: Option<string>, why: Option<string>, km: Km)

  /** The four-key reply. A missing or `null` list reads as an empty one. */
  datatype Narrative = Narrative(
    summary: Option<string>,
    highlights: seq<Highlight>,
    practical: seq<string>,
    borderNotes: Option<string>)

  const NoSummary: string := "No summary."
  const SummaryCap: int := 400
  const SectionCap: int := 6
  const DefaultName: string := "Point of interest"
  const HighlightsHeader: string := "\nHighlights:"
  const TipsHeader: string := "\nPractical tips:"
  const BorderPrefix: string := "\nBorder notes: "
  const Dot: string := "• "

  /** The fallback when the reply does not parse. */
  function Degraded(txt: string): (n: Narrative)
    ensures n.highlights == [] && n.practical == [] && n.borderNotes.None?
    ensures n.summary.Some? && n.summary.value != ""
    ensures txt != "" ==> n.summary.value == txt[..Min(SummaryCap, |txt|)]
    ensures txt == "" ==> n.summary.value == NoSummary
  {
    var head := SliceTo(txt, SummaryCap);
    Narrative(Some(if head == "" then NoSummary else head), [], [], None)
  }

  /** `json.loads(txt)` with the fallback: `parse` is the JSON decoder. */
  function ParseReply(txt: string, parse: string -> Option<Narrative>): (n: Narrative)
    ensures parse(txt).Some? ==> n == parse(txt).value
    ensures parse(txt).None? ==> n == Degraded(txt)
  {
    match parse(txt)
    case Some(v) => v
    case None => Degraded(txt)
  }

  /** The reply "hello world" that is not JSON becomes a summary-only
      structure. */
  lemma HelloWorldDegrades(parse: string -> Option<Narrative>)
    requires parse("hello world").None?
    ensures ParseReply("hello world", parse) == Narrative(Some("hello world"), [], [], None)
  {
  }

  function BulletName(h: Highlight): string {
    Strip(if Truthy(h.name) then h.name.value else DefaultName)
  }

  function BulletWhy(h: Highlight): string {
    Strip(if Truthy(h.why) then h.why.value else "")
  }

  function Tail(h: Highlight): string {
    match h.km
    case Numeric(shown) => " (~" + shown + " km from start)"
    case _ => ""
  }

  /** `f"• {name}: {why}{tail}"` */
  function RawBullet(h: Highlight): string {
    Concat([Dot, BulletName(h), ": ", BulletWhy(h), Tail(h)])
  }

  lemma RawBulletParts(h: Highlight)
    ensures RawBullet(h) == Dot + BulletName(h) + ": " + BulletWhy(h) + Tail(h)
  {
    ConcatFive(Dot, BulletName(h), ": ", BulletWhy(h), Tail(h));
  }

  /** `f"• {name}: {why}{tail}".strip().rstrip(":")` */
  function Bullet(h: Highlight): (b: string)
    ensures |b| > 0 && b[0] == '•' && b[|b| - 1] != ':'
  {
    var raw := RawBullet(h);
    assert raw[0] == '•';
    StripThenRStripCharKeepsHead(raw, ':');
    RStripChar(Strip(raw), ':')
  }

  /** Right-stripping never removes a prefix that ends in a kept character. */
  lemma RStripKeepsPrefix(s: string, p: string)
    requires p <= s && p != [] && !IsSpace(p[|p| - 1])
    ensures p <= RStrip(s)
  {
    var r := RStrip(s);
    RStripPrefix(s);
    RStripDropsSpace(s);
    assert |p| <= |r|;
    assert p == r[..|p|];
  }

  lemma RStripCharKeepsPrefix(s: string, p: string, c: char)
    requires p <= s && p != [] && p[|p| - 1] != c
    ensures p <= RStripChar(s, c)
  {
    var r := RStripChar(s, c);
    RStripCharPrefix(s, c);
    RStripCharDrops(s, c);
    assert |p| <= |r|;
    assert p == r[..|p|];
  }

  /** A numeric distance always shows as the "(~X km from start)" tail, and
      the bullet is then exactly name, colon, reason and tail. */
  lemma NumericBulletIsExact(h: Highlight)
    requires h.km.Numeric?
    ensures Bullet(h) == Dot + BulletName(h) + ": " + BulletWhy(h) + (" (~" + h.km.shown + " km from start)")
  {
    var head := Dot + BulletName(h) + ": " + BulletWhy(h);
    var tail := " (~" + h.km.shown + " km from start)";
    var raw := head + tail;
    assert Tail(h) == tail;
    RawBulletParts(h);
    assert raw[0] == head[0] == '•';
    assert raw[|raw| - 1] == tail[|tail| - 1] == ')';
    StripTrimmed(raw);
    RStripCharOne(raw, ':');
  }

  /** Without a numeric distance nothing of the form "(~X km from start)" is
      added: the bullet is a prefix of name, colon and reason. */
  lemma NonNumericBulletHasNoTail(h: Highlight)
    requires !h.km.Numeric?
    ensures Bullet(h) <= Dot + BulletName(h) + ": " + BulletWhy(h)
  {
    var raw := Dot + BulletName(h) + ": " + BulletWhy(h);
    RawBulletParts(h);
    assert raw + "" == raw;
    assert raw[0] == '•';
    var r := RStrip(raw);
    RStripDropsSpace(raw);
    RStripPrefix(raw);
    assert r != [] && r[0] == '•';
    RStripCharPrefix(Strip(raw), ':');
  }

  lemma ColonSpaceStripped(n: string)
    requires n != "" && n[|n| - 1] != ':'
    ensures RStripChar(Strip(Dot + n + ": "), ':') == Dot + n
  {
    var x := Dot + n;
    var a := x + [':'];
    assert Dot + n + ": " == a + " ";
    assert x[|x| - 1] == n[|n| - 1];
    assert a[0] == '•' && a[|a| - 1] == ':';
    RStripPadded(a, " ");
    LStripPadded([], a);
    assert [] + a == a;
    RStripCharOne(x, ':');
  }

  /** With an empty reason and no distance the bullet is just the name: no
      trailing colon remains. */
  lemma BareNameBullet(h: Highlight)
    requires !h.km.Numeric? && BulletWhy(h) == ""
    requires BulletName(h) != "" && BulletName(h)[|BulletName(h)| - 1] != ':'
    ensures Bullet(h) == Dot + BulletName(h)
  {
    var n := BulletName(h);
    RawBulletParts(h);
    assert Dot + n + ": " + BulletWhy(h) + Tail(h) == Dot + n + ": ";
    ColonSpaceStripped(n);
  }

  /** A highlight without a name is shown as "Point of interest". */
  lemma UnnamedHighlight(h: Highlight)
    requires !Truthy(h.name)
    ensures BulletName(h) == DefaultName
    ensures Dot + DefaultName <= Bullet(h)
  {
    StripTrimmed(DefaultName);
    var raw := Dot + DefaultName + ": " + BulletWhy(h) + Tail(h);
    RawBulletParts(h);
    var p := Dot + DefaultName;
    assert p <= raw;
    RStripKeepsPrefix(raw, p);
    assert LStrip(RStrip(raw)) == RStrip(raw) by { assert RStrip(raw)[0] == '•'; }
    RStripCharKeepsPrefix(Strip(raw), p, ':');
  }

  /** One line per item, in order. */
  function Lines<A>(xs: seq<A>, line: A -> string): seq<string> {
    seq(|xs|, i requires 0 <= i < |xs| => line(xs[i]))
  }

  /** A titled section of `_as_text`: nothing without items, otherwise its
      header and then a line for each of the first six items. */
  function Section<A>(header: string, xs: seq<A>, line: A -> string): seq<string> {
    if xs == [] then [] else [header] + Lines(SliceTo(xs, SectionCap), line)
  }

  /** The size and header of a section. */
  lemma SectionHead<A>(header: string, xs: seq<A>, line: A -> string)
    ensures xs == [] ==> Section(header, xs, line) == []
    ensures xs != [] ==> |Section(header, xs, line)| == 1 + Min(SectionCap, |xs|)
                         && Section(header, xs, line)[0] == header
  {
  }

  /** The line of one shown item. */
  lemma SectionLineAt<A>(header: string, xs: seq<A>, line: A -> string, i: int)
    requires 0 <= i < Min(SectionCap, |xs|)
    ensures |Section(header, xs, line)| == 1 + Min(SectionCap, |xs|)
    ensures Section(header, xs, line)[1 + i] == line(xs[i])
  {
    var shown := SliceTo(xs, SectionCap);
    assert shown[i] == xs[i];
  }

  function Bullets(hl: seq<Highlight>): seq<string> {
    Lines(hl, Bullet)
  }

  /** `f"• {p}"` */
  function Tip(p: string): string {
    Dot + p
  }

  function Tips(pr: seq<string>): seq<string> {
    Lines(pr, Tip)
  }

  function SummaryLines(n: Narrative): seq<string> {
    if Truthy(n.summary) then [Strip(n.summary.value)] else []
  }

  function HighlightLines(hl: seq<Highlight>): seq<string> {
    Section(HighlightsHeader, hl, Bullet)
  }

  function TipLines(pr: seq<string>): seq<string> {
    Section(TipsHeader, pr, Tip)
  }

  function BorderLines(bn: Option<string>): seq<string> {
    if Truthy(bn) then [BorderPrefix + bn.value] else []
  }

  /** The `parts` list of `_as_text`. */
  function Sections(n: Narrative): seq<string> {
    SummaryLines(n) + HighlightLines(n.highlights) + TipLines(n.practical) + BorderLines(n.borderNotes)
  }

  /** The highlights section: a header, then the first six bullets in order. */
  lemma HighlightLinesShape(hl: seq<Highlight>)
    ensures hl == [] ==> HighlightLines(hl) == []
    ensures hl != [] ==>
              && |HighlightLines(hl)| == 1 + Min(SectionCap, |hl|)
              && HighlightLines(hl)[0] == HighlightsHeader
              && forall i :: 0 <= i < Min(SectionCap, |hl|) ==> HighlightLines(hl)[1 + i] == Bullet(hl[i])
  {
    SectionHead(HighlightsHeader, hl, Bullet);
    forall i | 0 <= i < Min(SectionCap, |hl|) ensures HighlightLines(hl)[1 + i] == Bullet(hl[i]) {
      SectionLineAt(HighlightsHeader, hl, Bullet, i);
    }
  }

  /** The tips section: a header, then the first six tips in order. */
  lemma TipLinesShape(pr: seq<string>)
    ensures pr == [] ==> TipLines(pr) == []
    ensures pr != [] ==>
              && |TipLines(pr)| == 1 + Min(SectionCap, |pr|)
              && TipLines(pr)[0] == TipsHeader
              && forall i :: 0 <= i < Min(SectionCap, |pr|) ==> TipLines(pr)[1 + i] == Dot + pr[i]
  {
    SectionHead(TipsHeader, pr, Tip);
    forall i | 0 <= i < Min(SectionCap, |pr|) ensures TipLines(pr)[1 + i] == Dot + pr[i] {
      SectionLineAt(TipsHeader, pr, Tip, i);
    }
  }

  /** The number of lines in each part of the layout. */
  function SummaryCount(n: Narrative): nat { if Truthy(n.summary) then 1 else 0 }
  function HighlightCount(n: Narrative): nat {
    if n.highlights == [] then 0 else 1 + Min(SectionCap, |n.highlights|)
  }
  function TipCount(n: Narrative): nat {
    if n.practical == [] then 0 else 1 + Min(SectionCap, |n.practical|)
  }
  function BorderCount(n: Narrative): nat { if Truthy(n.borderNotes) then 1 else 0 }

  /** The layout of the rendered parts: summary, then the highlights section,
      then the tips section, then the border line; a section is present only
      when it has data. */
  lemma SectionLayout(n: Narrative)
    ensures |Sections(n)| == SummaryCount(n) + HighlightCount(n) + TipCount(n) + BorderCount(n)
    ensures SummaryCount(n) == 1 ==> Sections(n)[0] == Strip(n.summary.value)
    ensures BorderCount(n) == 1 ==>
              Sections(n)[SummaryCount(n) + HighlightCount(n) + TipCount(n)] == BorderPrefix + n.borderNotes.value
  {
    SectionHead(HighlightsHeader, n.highlights, Bullet);
    SectionHead(TipsHeader, n.practical, Tip);
  }

  /** The highlights section follows the summary: its header, then the
      first six highlights in order. */
  lemma HighlightsPlaced(n: Narrative)
    ensures HighlightCount(n) > 0 ==> Sections(n)[SummaryCount(n)] == HighlightsHeader
    ensures forall i :: 0 <= i < HighlightCount(n) - 1 ==>
              Sections(n)[SummaryCount(n) + 1 + i] == Bullet(n.highlights[i])
  {
    var s, h, p, b := SummaryLines(n), HighlightLines(n.highlights), TipLines(n.practical), BorderLines(n.borderNotes);
    SectionHead(HighlightsHeader, n.highlights, Bullet);
    assert |s| == SummaryCount(n) && |h| == HighlightCount(n);
    assert Sections(n) == s + h + p + b;
    if h != [] {
      SecondAt(s, h, p, b, 0);
    }
    forall i | 0 <= i < |h| - 1 ensures Sections(n)[|s| + 1 + i] == Bullet(n.highlights[i]) {
      SecondSectionAt(s, HighlightsHeader, n.highlights, Bullet, p, b, i);
    }
  }

  /** The tips section follows the highlights section: its header, then the
      first six tips in order, each behind a bullet. */
  lemma TipsPlaced(n: Narrative)
    ensures TipCount(n) > 0 ==> Sections(n)[SummaryCount(n) + HighlightCount(n)] == TipsHeader
    ensures forall i :: 0 <= i < TipCount(n) - 1 ==>
              Sections(n)[SummaryCount(n) + HighlightCount(n) + 1 + i] == Dot + n.practical[i]
  {
    var s, h, p, b := SummaryLines(n), HighlightLines(n.highlights), TipLines(n.practical), BorderLines(n.borderNotes);
    SectionHead(HighlightsHeader, n.highlights, Bullet);
    SectionHead(TipsHeader, n.practical, Tip);
    assert |s| == SummaryCount(n) && |h| == HighlightCount(n) && |p| == TipCount(n);
    assert Sections(n) == s + h + p + b;
    if p != [] {
      ThirdAt(s, h, p, b, 0);
    }
    forall i | 0 <= i < |p| - 1 ensures Sections(n)[|s| + |h| + 1 + i] == Dot + n.practical[i] {
      ThirdSectionAt(s, h, TipsHeader, n.practical, Tip, b, i);
    }
  }

  /** Where an element of the second of four joined lists lands. */
  lemma SecondAt<T>(s: seq<T>, h: seq<T>, p: seq<T>, b: seq<T>, i: int)
    requires 0 <= i < |h|
    ensures (s + h + p + b)[|s| + i] == h[i]
  {
  }

  /** Where an element of the third of four joined lists lands. */
  lemma ThirdAt<T>(s: seq<T>, h: seq<T>, p: seq<T>, b: seq<T>, i: int)
    requires 0 <= i < |p|
    ensures (s + h + p + b)[|s| + |h| + i] == p[i]
  {
  }

  /** Where a shown item of a section lands when the section is the second
      of four joined lists. */
  lemma SecondSectionAt<A>(s: seq<string>, header: string, xs: seq<A>, line: A -> string,
                           p: seq<string>, b: seq<string>, i: int)
    requires 0 <= i < Min(SectionCap, |xs|)
    ensures (s + Section(header, xs, line) + p + b)[|s| + 1 + i] == line(xs[i])
  {
    SectionLineAt(header, xs, line, i);
    SecondAt(s, Section(header, xs, line), p, b, 1 + i);
  }

  /** Where a shown item of a section lands when the section is the third
      of four joined lists. */
  lemma ThirdSectionAt<A>(s: seq<string>, h: seq<string>, header: string, xs: seq<A>, line: A -> string,
                          b: seq<string>, i: int)
    requires 0 <= i < Min(SectionCap, |xs|)
    ensures (s + h + Section(header, xs, line) + b)[|s| + |h| + 1 + i] == line(xs[i])
  {
    SectionLineAt(header, xs, line, i);
    ThirdAt(s, h, Section(header, xs, line), b, 1 + i);
  }

  predicate StartsWith(s: string, prefix: string) {
    prefix <= s
  }

  /** Every part other than a header or the border line starts with
      something that is not a newline. */
  predicate PlainLine(x: string) {
    x == [] || x[0] != '\n'
  }

  lemma BulletsArePlain(hl: seq<Highlight>)
    ensures forall x :: x in Bullets(hl) ==> PlainLine(x)
  {
    var bs := Bullets(hl);
    forall i | 0 <= i < |bs| ensures PlainLine(bs[i]) {
      assert bs[i] == Bullet(hl[i]);
    }
  }

  lemma TipsArePlain(pr: seq<string>)
    ensures forall x :: x in Tips(pr) ==> PlainLine(x)
  {
    forall x | x in Tips(pr) ensures PlainLine(x) {
      var j :| 0 <= j < |pr| && Tips(pr)[j] == x;
      assert x == Tip(pr[j]);
      assert x[0] == Dot[0];
    }
  }

  /** The highlights header is among the parts exactly when there are
      highlights: no other part can look like it. */
  lemma HighlightsHeaderIffData(n: Narrative)
    ensures HighlightsHeader in Sections(n) <==> n.highlights != []
  {
    var s, h, p, b := SummaryLines(n), HighlightLines(n.highlights), TipLines(n.practical), BorderLines(n.borderNotes);
    assert Sections(n) == s + h + p + b;
    assert !PlainLine(HighlightsHeader);
    assert HighlightsHeader !in s;
    TipsArePlain(SliceTo(n.practical, SectionCap));
    assert HighlightsHeader != TipsHeader by { assert |HighlightsHeader| != |TipsHeader|; }
    assert HighlightsHeader !in p;
    if b != [] {
      assert b[0][1] == 'B' && HighlightsHeader[1] == 'H';
    }
    assert HighlightsHeader !in b;
    if n.highlights == [] {
      assert h == [];
    } else {
      assert h[0] == HighlightsHeader;
    }
  }

  /** The tips header is among the parts exactly when there are tips. */
  lemma TipsHeaderIffData(n: Narrative)
    ensures TipsHeader in Sections(n) <==> n.practical != []
  {
    var s, h, p, b := SummaryLines(n), HighlightLines(n.highlights), TipLines(n.practical), BorderLines(n.borderNotes);
    assert Sections(n) == s + h + p + b;
    assert !PlainLine(TipsHeader);
    assert TipsHeader !in s;
    BulletsArePlain(SliceTo(n.highlights, SectionCap));
    assert HighlightsHeader != TipsHeader by { assert |HighlightsHeader| != |TipsHeader|; }
    assert TipsHeader !in h;
    if b != [] {
      assert b[0][1] == 'B' && TipsHeader[1] == 'P';
    }
    assert TipsHeader !in b;
    if n.practical == [] {
      assert p == [];
    } else {
      assert p[0] == TipsHeader;
    }
  }

  /** A "Border notes" line is among the parts exactly when the notes are a
      non-empty string. */
  lemma BorderLineIffNotes(n: Narrative)
    ensures (exists x :: x in Sections(n) && StartsWith(x, BorderPrefix)) <==> Truthy(n.borderNotes)
  {
    var s, h, p, b := SummaryLines(n), HighlightLines(n.highlights), TipLines(n.practical), BorderLines(n.borderNotes);
    assert Sections(n) == s + h + p + b;
    BulletsArePlain(SliceTo(n.highlights, SectionCap));
    TipsArePlain(SliceTo(n.practical, SectionCap));
    if Truthy(n.borderNotes) {
      assert b[0] in Sections(n) && StartsWith(b[0], BorderPrefix);
    } else {
      forall x | x in Sections(n) ensures !StartsWith(x, BorderPrefix) {
        assert x in s || x in h || x in p;
        assert PlainLine(x) || x == HighlightsHeader || x == TipsHeader;
        assert BorderPrefix[0] == '\n' && BorderPrefix[1] == 'B';
        assert HighlightsHeader[1] == 'H' && TipsHeader[1] == 'P';
      }
    }
  }

  /** `_as_text(narr)` */
  function AsText(n: Narrative): (text: string)
    ensures Trimmed(text)
  {
    Strip(Join(Sections(n), "\n"))
  }

  lemma StripIdempotent(s: string)
    ensures Strip(Strip(s)) == Strip(s)
  {
    StripTrimmed(Strip(s));
  }

  /** A degraded reply renders as its stripped first 400 characters, or as
      "No summary." when the reply is empty. */
  lemma DegradedRendersSummaryOnly(txt: string)
    ensures txt != "" ==> AsText(Degraded(txt)) == Strip(txt[..Min(SummaryCap, |txt|)])
    ensures txt == "" ==> AsText(Degraded(txt)) == NoSummary
  {
    var n := Degraded(txt);
    assert Sections(n) == [Strip(n.summary.value)];
    StripIdempotent(n.summary.value);
    if txt == "" {
      StripTrimmed(NoSummary);
    }
  }
}
