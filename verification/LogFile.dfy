/**
 The event log as a file: what jobs_replay reads of lines written one after
 the other, and exactly which records it gets back.
 */
module LogFile {
  import opened Dependency
  import opened LogFormat
  import P = DependencyProofs

  /** fgets: through the newline, or as much as the buffer takes */
  function LineEnd(s: string, max: nat): (n: nat)
    ensures n <= |s| && n <= max && (s != [] && max > 0 ==> n > 0)
  {
    if s == [] || max == 0 then 0 else if s[0] == '\n' then 1 else 1 + LineEnd(s[1..], max - 1)
  }

  /** It stops at the first newline, if that fits, and not before. */
  lemma {:induction false} LineStops(s: string, max: nat)
    ensures var n := LineEnd(s, max);
            && (forall i :: 0 <= i < n - 1 ==> s[i] != '\n')
            && (n == |s| || n == max || (n > 0 && s[n - 1] == '\n'))
  {
    if s != [] && max > 0 && s[0] != '\n' {
      LineStops(s[1..], max - 1);
      var n := LineEnd(s[1..], max - 1);
      assert forall i :: 0 < i <= n ==> s[i] == s[1..][i - 1];
    }
  }

  /** The loop of jobs_replay: a line without a header ends it, a line of no
      known type or with a malformed payload is passed over. */
  function ReadLog(s: string): seq<Record> {
    if s == [] then []
    else
      var n := LineEnd(s, LL_BUFSIZ_4K - 1);
      if ReadHeader(s[..n]).Nope? then []
      else
        var first := ReadLine(s[..n]);
        (if first.Yes? then [first.value] else []) + ReadLog(s[n..])
  }

  function Lines(rs: seq<Record>): string {
    if rs == [] then "" else Line(rs[0]) + Lines(rs[1..])
  }

  /** The records come back, and whatever is appended is read behind them. */
  ghost predicate Carries(rs: seq<Record>) {
    forall s :: ReadLog(Lines(rs) + s) == rs + ReadLog(s)
  }

  // -------------------------------------------------------------------
  // One line
  // -------------------------------------------------------------------

  predicate OneLine(s: string) {
    forall i :: 0 <= i < |s| ==> s[i] != '\n'
  }

  lemma {:induction false} LineTaken(a: string, rest: string, max: nat)
    requires OneLine(a) && |a| < max
    ensures LineEnd(a + "\n" + rest, max) == |a| + 1
  {
    var s := a + "\n" + rest;
    if a != [] {
      assert s[0] == a[0] && s[1..] == a[1..] + "\n" + rest;
      LineTaken(a[1..], rest, max - 1);
    }
  }

  lemma {:induction false} LineFull(a: string, rest: string, max: nat)
    requires OneLine(a) && |a| == max
    ensures LineEnd(a + rest, max) == max
  {
    if a != [] {
      assert (a + rest)[0] == a[0] && (a + rest)[1..] == a[1..] + rest;
      LineFull(a[1..], rest, max - 1);
    }
  }

  lemma {:induction false} NatOneLine(n: nat)
    ensures OneLine(P.ShowNat(n))
  {
    var w := P.ShowNat(n);
    assert w[0..|w|] == w;
    P.ShowNatAt(w, 0, n);
  }

  lemma {:induction false} NumsOneLine(vs: seq<int>)
    ensures OneLine(NumsText(vs))
  {
    if vs != [] {
      NatOneLine(if vs[0] < 0 then -vs[0] else vs[0]);
      NumsOneLine(vs[1..]);
    }
  }

  lemma {:induction false} TextsOneLine(ss: seq<string>)
    requires forall i :: 0 <= i < |ss| ==> Clean(ss[i])
    ensures OneLine(TextsText(ss))
  {
    if ss != [] { TextsOneLine(ss[1..]); }
  }

  /** A line without its newline. */
  function Content(r: Record): string {
    NameOf(r.event) + (NumsText([LOG_VERSION, r.time]) + (NumsText(Printed(r)) + TextsText(r.texts)))
  }

  lemma {:induction false} LineIsContent(r: Record)
    ensures Line(r) == Content(r) + "\n"
  {
    var name, hdr, nums, texts := NameOf(r.event), NumsText([LOG_VERSION, r.time]), NumsText(Printed(r)), TextsText(r.texts);
    assert nums + (texts + "\n") == nums + texts + "\n";
    assert hdr + (nums + texts + "\n") == hdr + (nums + texts) + "\n";
    assert name + (hdr + (nums + texts) + "\n") == name + (hdr + (nums + texts)) + "\n";
  }

  predicate CleanTexts(r: Record) {
    forall i :: 0 <= i < |r.texts| ==> Clean(r.texts[i])
  }

  lemma {:induction false} ContentOneLine(r: Record)
    requires CleanTexts(r)
    ensures OneLine(Content(r))
  {
    NumsOneLine(Printed(r));
    NumsOneLine([LOG_VERSION, r.time]);
    TextsOneLine(r.texts);
    NameSolid(r.event);
  }

  // -------------------------------------------------------------------
  // What fits comes back
  // -------------------------------------------------------------------

  /** What one fgets contributes. */
  function ReadChunk(c: string, rest: seq<Record>): seq<Record> {
    if ReadHeader(c).Nope? then [] else (if ReadLine(c).Yes? then [ReadLine(c).value] else []) + rest
  }

  lemma {:induction false} ChunkRead(c: string, rest: string)
    requires c != [] && LineEnd(c + rest, LL_BUFSIZ_4K - 1) == |c|
    ensures ReadLog(c + rest) == ReadChunk(c, ReadLog(rest))
  {
    hide ReadLine, ReadHeader, LineEnd;
    var s := c + rest;
    assert s[..|c|] == c && s[|c|..] == rest;
  }

  lemma {:induction false} ReadHasHeader(line: string)
    ensures ReadLine(line).Yes? ==> ReadHeader(line).Yes?
  {
  }

  lemma {:induction false} FitsIsRead(r: Record, rest: string)
    requires Fits(r)
    ensures ReadLog(Line(r) + rest) == [r] + ReadLog(rest)
  {
    LineIsContent(r);
    ContentOneLine(r);
    LineTaken(Content(r), rest, LL_BUFSIZ_4K - 1);
    LineRoundTrip(r);
    ReadHasHeader(Line(r));
    hide ReadLine, ReadHeader, LineEnd, Content, Line;
    ChunkRead(Line(r), rest);
  }

  lemma {:induction false} LinesSplit(rs: seq<Record>, s: string)
    requires rs != []
    ensures Lines(rs) + s == Line(rs[0]) + (Lines(rs[1..]) + s)
  {
    hide Line;
  }

  lemma {:induction false} FitsAreRead(rs: seq<Record>, s: string)
    requires forall i :: 0 <= i < |rs| ==> Fits(rs[i])
    ensures ReadLog(Lines(rs) + s) == rs + ReadLog(s)
  {
    hide Fits, Line, ReadLog;
    if rs == [] {
      assert Lines(rs) + s == s && rs + ReadLog(s) == ReadLog(s);
    } else {
      LinesSplit(rs, s);
      FitsIsRead(rs[0], Lines(rs[1..]) + s);
      FitsAreRead(rs[1..], s);
      assert rs + ReadLog(s) == [rs[0]] + (rs[1..] + ReadLog(s));
    }
  }

  // -------------------------------------------------------------------
  // Nothing that is read has a quote or a newline in it
  // -------------------------------------------------------------------

  /** A newline, if any, is the last character. */
  predicate Terminated(s: string) {
    forall i :: 0 <= i < |s| - 1 ==> s[i] != '\n'
  }

  predicate Plain(s: string) {
    forall i :: 0 <= i < |s| ==> s[i] != '\"' && s[i] != '\n'
  }

  predicate PlainTexts(ss: seq<string>) {
    forall i :: 0 <= i < |ss| ==> Plain(ss[i])
  }

  lemma {:induction false} TakenTerminated(s: string, max: nat)
    ensures Terminated(s[..LineEnd(s, max)])
  {
    var n := LineEnd(s, max);
    if s != [] && max > 0 && s[0] != '\n' {
      TakenTerminated(s[1..], max - 1);
      assert s[..n] == [s[0]] + s[1..][..n - 1];
    }
  }

  lemma {:induction false} SpaceSuffix(s: string)
    ensures |SkipSpace(s)| <= |s| && SkipSpace(s) == s[|s| - |SkipSpace(s)|..]
  {
    if s != [] && IsSpace(s[0]) { SpaceSuffix(s[1..]); }
  }

  lemma {:induction false} BlankSuffix(s: string)
    ensures |SkipBlanks(s)| <= |s| && SkipBlanks(s) == s[|s| - |SkipBlanks(s)|..]
  {
    if s != [] && s[0] == ' ' { BlankSuffix(s[1..]); }
  }

  lemma {:induction false} NoQuoteBefore(s: string)
    ensures forall i :: 0 <= i < QuoteAt(s) ==> s[i] != '\"'
  {
    if s != [] && s[0] != '\"' { NoQuoteBefore(s[1..]); }
  }

  lemma {:induction false} ScanSuffix(s: string)
    ensures var n := ScanNumber(s); n.Yes? ==> |n.value.rest| < |s| && n.value.rest == s[|s| - |n.value.rest|..]
  {
    SpaceSuffix(s);
  }

  lemma {:induction false} NumsSuffix(ws: seq<Width>, s: string)
    ensures var n := ScanNums(ws, s); n.Yes? ==> |n.value.rest| <= |s| && n.value.rest == s[|s| - |n.value.rest|..]
  {
    if ws != [] {
      ScanSuffix(s);
      var n := ScanNumber(s);
      if n.Yes? { NumsSuffix(ws[1..], n.value.rest); }
    }
  }

  lemma {:induction false} QstrPlain(s: string, size: nat)
    requires Terminated(s)
    ensures var t := ReadQstr(s, size);
            t.Yes? ==> && Plain(t.value.value) && |t.value.value| < size && Terminated(t.value.rest)
                       && |t.value.rest| + |t.value.value| + 2 <= |s|
  {
    BlankSuffix(s);
    var t := SkipBlanks(s);
    if t != [] {
      NoQuoteBefore(t[1..]);
      assert Terminated(t) && Terminated(t[1..]);
    }
  }

  /** Characters in the texts. */
  function TextsSize(ss: seq<string>): nat {
    if ss == [] then 0 else |ss[0]| + TextsSize(ss[1..])
  }

  lemma {:induction false} TextsPlain(sizes: seq<nat>, s: string)
    requires Terminated(s)
    ensures var ts := ReadTexts(sizes, s); ts.Yes? ==> PlainTexts(ts.value) && TextsSize(ts.value) <= |s|
  {
    if sizes != [] {
      QstrPlain(s, sizes[0]);
      var t := ReadQstr(s, sizes[0]);
      if t.Yes? {
        TextsPlain(sizes[1..], t.value.rest);
        var ts := ReadTexts(sizes[1..], t.value.rest);
        if ts.Yes? { assert ([t.value.value] + ts.value)[1..] == ts.value; }
      }
    }
  }

  lemma {:induction false} HeaderSuffix(line: string)
    ensures var h := ReadHeader(line); h.Yes? ==> |h.value.rest| <= |line| && h.value.rest == line[|line| - |h.value.rest|..]
  {
    SpaceSuffix(line);
    var t := SkipSpace(line);
    var n := WordEnd(t, 63);
    ScanSuffix(t[n..]);
    var version := ScanNumber(t[n..]);
    if version.Yes? { ScanSuffix(version.value.rest); }
  }

  lemma {:induction false} PayloadPlain(event: Event, time: int, s: string)
    requires Terminated(s)
    ensures var r := ReadPayload(event, time, s); r.Yes? ==> PlainTexts(r.value.texts) && TextsSize(r.value.texts) <= |s|
  {
    hide SchemaOf;
    NumsSuffix(SchemaOf(event).nums, s);
    var nums := ScanNums(SchemaOf(event).nums, s);
    if nums.Yes? { TextsPlain(SchemaOf(event).texts, nums.value.rest); }
  }

  lemma {:induction false} ReadPlain(line: string)
    requires Terminated(line)
    ensures var r := ReadLine(line); r.Yes? ==> PlainTexts(r.value.texts) && TextsSize(r.value.texts) <= |line|
  {
    hide ReadHeader, ReadPayload, EventOf;
    HeaderSuffix(line);
    var h := ReadHeader(line);
    if h.Yes? {
      assert Terminated(h.value.rest);
      var event := EventOf(h.value.value.0, 0);
      if event.Yes? { PayloadPlain(event.value, h.value.value.1, h.value.rest); }
    }
  }

  lemma {:induction false} LogPlain(s: string)
    ensures forall i :: 0 <= i < |ReadLog(s)| ==> PlainTexts(ReadLog(s)[i].texts)
  {
    if s != [] {
      var n := LineEnd(s, LL_BUFSIZ_4K - 1);
      TakenTerminated(s, LL_BUFSIZ_4K - 1);
      ReadPlain(s[..n]);
      hide ReadLine, ReadHeader;
      LogPlain(s[n..]);
    }
  }

  // -------------------------------------------------------------------
  // How long a line is
  // -------------------------------------------------------------------

  function Pow10(k: nat): nat {
    if k == 0 then 1 else 10 * Pow10(k - 1)
  }

  lemma {:induction false} NatLength(n: nat, k: nat)
    requires n < Pow10(k) && k >= 1
    ensures |P.ShowNat(n)| <= k
  {
    if n >= 10 {
      assert k >= 2;
      NatLength(n / 10, k - 1);
    }
  }

  lemma {:induction false} TenTo20()
    ensures Pow10(20) > TWO64 && Pow10(19) > INT64_MAX + 1
  {
    assert Pow10(5) == 100000;
    assert Pow10(10) == 100000 * 100000;
    assert Pow10(15) == 100000 * 100000 * 100000;
    assert Pow10(19) == 10000 * 100000 * 100000 * 100000;
  }

  lemma {:induction false} IntLength(w: Width, v: int)
    requires InRange(w, v)
    ensures |P.ShowInt(v)| <= 20
  {
    TenTo20();
    if v < 0 { NatLength(-v, 19); } else { NatLength(v, 20); }
  }

  lemma {:induction false} NumsLength(ws: seq<Width>, vs: seq<int>)
    requires NumsFit(ws, vs)
    ensures |NumsText(vs)| <= 21 * |vs|
  {
    if vs != [] {
      hide P.ShowInt;
      IntLength(ws[0], vs[0]);
      NumsLength(ws[1..], vs[1..]);
    }
  }

  lemma {:induction false} TextsLength(ss: seq<string>)
    ensures |TextsText(ss)| == TextsSize(ss) + 3 * |ss|
  {
    if ss != [] { TextsLength(ss[1..]); }
  }

  /** The types of the fields: numbers in range, strings that fit theirs. */
  predicate TextsTyped(sizes: seq<nat>, ss: seq<string>) {
    |sizes| == |ss| && forall i :: 0 <= i < |ss| ==> |ss[i]| < sizes[i] && forall k :: 0 <= k < |ss[i]| ==> ss[i][k] != '\0'
  }

  predicate Typed(r: Record) {
    && r.time > 0 && InRange(Long, r.time) && NumsFit(SchemaOf(r.event).nums, r.nums)
    && TextsTyped(SchemaOf(r.event).texts, r.texts)
  }

  function Sum(ns: seq<nat>): nat {
    if ns == [] then 0 else ns[0] + Sum(ns[1..])
  }

  lemma {:induction false} SizesBound(sizes: seq<nat>, ss: seq<string>)
    requires TextsTyped(sizes, ss)
    ensures TextsSize(ss) <= Sum(sizes)
  {
    if ss != [] { SizesBound(sizes[1..], ss[1..]); }
  }

  lemma {:induction false} SchemaBounds(e: Event)
    ensures |SchemaOf(e).nums| <= 18 && |SchemaOf(e).texts| <= 8 && Sum(SchemaOf(e).texts) <= 5696
    ensures |NameOf(e)| <= 15
  {
    var t := SchemaOf(e).texts;
    if e == JobNew {
      assert t == [64] + ([64] + ([64] + ([64] + ([64] + ([1024] + ([256] + [4096]))))));
      SumSplit(64, [64, 64, 64, 64, 1024, 256, 4096]);
      SumSplit(64, [64, 64, 64, 1024, 256, 4096]);
      SumSplit(64, [64, 64, 1024, 256, 4096]);
      SumSplit(64, [64, 1024, 256, 4096]);
      SumSplit(64, [1024, 256, 4096]);
      SumSplit(1024, [256, 4096]);
      SumSplit(256, [4096]);
      SumSplit(4096, []);
    } else if e == JobStart {
      assert t == [64] + ([64] + [4096]);
      SumSplit(64, [64, 4096]);
      SumSplit(64, [4096]);
      SumSplit(4096, []);
    } else if e == JobMove {
      SumSplit(64, [64]);
      SumSplit(64, []);
    }
  }

  lemma {:induction false} SumSplit(n: nat, ns: seq<nat>)
    ensures Sum([n] + ns) == n + Sum(ns)
  {
    assert ([n] + ns)[1..] == ns;
  }

  const OVERHEAD := 470

  lemma {:induction false} FrontLength(r: Record)
    requires Typed(r)
    ensures |NameOf(r.event)| + |NumsText([LOG_VERSION, r.time])| + |NumsText(Printed(r))| <= 445
  {
    hide SchemaOf, NameOf;
    SchemaBounds(r.event);
    NumsLength(SchemaOf(r.event).nums, r.nums);
    NumsLength([Long], [r.time]);
    NumsLength([Int, Long], [LOG_VERSION, r.time]);
    NumsSplit(r.nums, [r.time]);
  }

  lemma {:induction false} LineLength(r: Record)
    requires Typed(r)
    ensures TextsSize(r.texts) < |Line(r)| <= TextsSize(r.texts) + OVERHEAD && TextsSize(r.texts) <= 5696
  {
    FrontLength(r);
    hide NumsText, TextsText, NameOf, Printed;
    LineIsContent(r);
    SchemaBounds(r.event);
    hide SchemaOf;
    TextsLength(r.texts);
    SizesBound(SchemaOf(r.event).texts, r.texts);
  }

  // -------------------------------------------------------------------
  // A line past the buffer
  // -------------------------------------------------------------------

  lemma {:induction false} QstrCut(s: string, k: nat, size: nat)
    requires Plain(s) && k < |Quoted(s)|
    ensures ReadQstr(Quoted(s)[..k], size).Nope?
  {
    var p := Quoted(s)[..k];
    if k > 1 {
      assert p[0] == ' ' && p[1..][0] == '\"';
      assert SkipBlanks(p) == SkipBlanks(p[1..]) == p[1..];
      var u := p[1..][1..];
      assert u == s[..k - 2];
      NoQuoteAtAll(u);
    } else if k == 1 {
      assert p == " " && p[1..] == "";
      assert SkipBlanks(p) == SkipBlanks("") == "";
    }
  }

  lemma {:induction false} NoQuoteAtAll(s: string)
    requires Plain(s)
    ensures QuoteAt(s) == |s|
  {
    if s != [] { NoQuoteAtAll(s[1..]); }
  }

  /** Strings cut short anywhere are not read. */
  lemma {:induction false} TextsCut(sizes: seq<nat>, ss: seq<string>, k: nat)
    requires |sizes| == |ss| && PlainTexts(ss) && k < |TextsText(ss)|
    ensures ReadTexts(sizes, TextsText(ss)[..k]).Nope?
  {
    var q, tail := Quoted(ss[0]), TextsText(ss[1..]);
    var p := TextsText(ss)[..k];
    if k < |q| {
      assert p == q[..k];
      QstrCut(ss[0], k, sizes[0]);
    } else {
      var rest := tail[..k - |q|];
      assert p == q + rest;
      QstrFront(ss[0], rest, sizes[0]);
      TextsCut(sizes[1..], ss[1..], k - |q|);
    }
  }

  lemma {:induction false} QstrFront(s: string, rest: string, size: nat)
    requires Plain(s)
    ensures ReadQstr(Quoted(s) + rest, size) == if |s| < size then Yes(Scan(s, rest)) else Nope
  {
    var all := Quoted(s) + rest;
    var u := s + "\"" + rest;
    assert all[0] == ' ' && all[1..][0] == '\"' && all[1..][1..] == u;
    assert SkipBlanks(all) == SkipBlanks(all[1..]) == all[1..];
    QuoteFound(s, rest);
    assert u[..|s|] == s && u[|s| + 1..] == rest;
  }

  /** What is before the strings. */
  function Front(r: Record): string {
    NameOf(r.event) + (NumsText([LOG_VERSION, r.time]) + NumsText(Printed(r)))
  }

  lemma {:induction false} ContentParts(r: Record, k: nat)
    requires k <= |TextsText(r.texts)|
    ensures Content(r) == Front(r) + TextsText(r.texts)
    ensures Front(r) + TextsText(r.texts)[..k]
            == NameOf(r.event) + (NumsText([LOG_VERSION, r.time]) + (NumsText(Printed(r)) + TextsText(r.texts)[..k]))
  {
    hide NameOf, NumsText, TextsText, Printed;
    var name, hdr, nums, texts := NameOf(r.event), NumsText([LOG_VERSION, r.time]), NumsText(Printed(r)), TextsText(r.texts);
    assert hdr + (nums + texts) == hdr + nums + texts;
    assert hdr + (nums + texts[..k]) == hdr + nums + texts[..k];
  }

  lemma {:induction false} CutEnds(ss: seq<string>, k: nat)
    requires k <= |TextsText(ss)|
    ensures Ends(TextsText(ss)[..k])
  {
    if ss != [] && k > 0 { assert TextsText(ss)[..k][0] == ' '; }
  }

  /** A record with strings whose line is cut within them: the header is read,
      the payload is not. */
  lemma {:induction false} CutNotRead(r: Record, k: nat)
    requires Typed(r) && PlainTexts(r.texts) && k < |TextsText(r.texts)|
    ensures ReadHeader(Front(r) + TextsText(r.texts)[..k]).Yes? && ReadLine(Front(r) + TextsText(r.texts)[..k]).Nope?
  {
    var cut := TextsText(r.texts)[..k];
    var body := NumsText(Printed(r)) + cut;
    ContentParts(r, k);
    CutEnds(r.texts, k);
    NumsEnd(Printed(r), cut);
    NameSolid(r.event);
    HeaderRead(NameOf(r.event), r.time, body);
    NameFound(r.event);
    assert r.event != JobFinish;
    NumsScanned(SchemaOf(r.event).nums, r.nums, cut);
    TextsCut(SchemaOf(r.event).texts, r.texts, k);
  }

  /** The line is cut in two: what fgets takes first, and the rest. */
  function Taken(r: Record): string
    requires |Line(r)| >= LL_BUFSIZ_4K
  {
    Line(r)[..LL_BUFSIZ_4K - 1]
  }

  function Left(r: Record): string
    requires |Line(r)| >= LL_BUFSIZ_4K
  {
    Line(r)[LL_BUFSIZ_4K - 1..]
  }

  lemma {:induction false} TakenNotRead(r: Record)
    requires Typed(r) && PlainTexts(r.texts) && |Line(r)| > LL_BUFSIZ_4K
    ensures ReadHeader(Taken(r)).Yes? && ReadLine(Taken(r)).Nope?
  {
    LineIsContent(r);
    FrontLength(r);
    var front, texts := Front(r), TextsText(r.texts);
    ContentParts(r, 0);
    var k := LL_BUFSIZ_4K - 1 - |front|;
    FrontIs(r);
    assert Taken(r) == Content(r)[..LL_BUFSIZ_4K - 1] == front + texts[..k];
    CutNotRead(r, k);
  }

  lemma {:induction false} FrontIs(r: Record)
    ensures |Front(r)| == |NameOf(r.event)| + |NumsText([LOG_VERSION, r.time])| + |NumsText(Printed(r))|
  {
  }

  lemma {:induction false} LeftIsLine(r: Record)
    requires Typed(r) && PlainTexts(r.texts) && |Line(r)| >= LL_BUFSIZ_4K
    ensures exists a :: Left(r) == a + "\n" && OneLine(a) && |a| < LL_BUFSIZ_4K - 1
    ensures OneLine(Taken(r)) && Terminated(Left(r)) && |Left(r)| < TextsSize(r.texts)
  {
    LineIsContent(r);
    LineLength(r);
    TypedClean(r);
    ContentOneLine(r);
    hide Line, Content;
    var a := Content(r)[LL_BUFSIZ_4K - 1..];
    assert Left(r) == a + "\n";
    assert Taken(r) == Content(r)[..LL_BUFSIZ_4K - 1];
  }

  lemma {:induction false} TypedClean(r: Record)
    requires Typed(r)
    ensures PlainTexts(r.texts) <==> CleanTexts(r)
    ensures Fits(r) <==> PlainTexts(r.texts) && |Line(r)| < LL_BUFSIZ_4K
  {
    hide Line, SchemaOf;
  }

  lemma {:induction false} TwoChunks(r: Record, rest: string)
    requires Typed(r) && PlainTexts(r.texts) && |Line(r)| >= LL_BUFSIZ_4K
    ensures ReadLog(Line(r) + rest) == ReadChunk(Taken(r), ReadLog(Left(r) + rest))
  {
    LeftIsLine(r);
    LineInTwo(r, rest);
    TakenLength(r);
    hide Line, Taken, Left, ReadLog, ReadChunk, LineEnd;
    LineFull(Taken(r), Left(r) + rest, LL_BUFSIZ_4K - 1);
    ChunkRead(Taken(r), Left(r) + rest);
  }

  lemma {:induction false} LineInTwo(r: Record, rest: string)
    requires |Line(r)| >= LL_BUFSIZ_4K
    ensures Line(r) + rest == Taken(r) + (Left(r) + rest)
  {
    hide Line;
    assert Line(r) == Taken(r) + Left(r);
  }

  lemma {:induction false} TakenLength(r: Record)
    requires |Line(r)| >= LL_BUFSIZ_4K
    ensures |Taken(r)| == LL_BUFSIZ_4K - 1
  {
    hide Line;
  }

  /** The first fgets takes Taken, and the payload is passed over. */
  lemma {:induction false} LongSkips(r: Record, rest: string)
    requires Typed(r) && PlainTexts(r.texts) && |Line(r)| > LL_BUFSIZ_4K
    ensures ReadLog(Line(r) + rest) == ReadLog(Left(r) + rest)
  {
    TwoChunks(r, rest);
    TakenNotRead(r);
    hide Line, Left, Taken, ReadLog, ReadLine, ReadHeader;
    assert [] + ReadLog(Left(r) + rest) == ReadLog(Left(r) + rest);
  }

  /** What reading a terminated line contributes. */
  lemma {:induction false} OneLineRead(a: string, rest: string)
    requires OneLine(a) && |a| < LL_BUFSIZ_4K - 1
    ensures ReadLog(a + "\n" + rest) == ReadChunk(a + "\n", ReadLog(rest))
  {
    LineTaken(a, rest, LL_BUFSIZ_4K - 1);
    hide ReadLog, ReadChunk;
    ChunkRead(a + "\n", rest);
  }

  /** A line longer than the buffer: the record does not come first. */
  lemma {:induction false} LongIsLost(r: Record, rest: string)
    requires Typed(r) && PlainTexts(r.texts) && |Line(r)| > LL_BUFSIZ_4K
    ensures var got := ReadLog(Line(r) + rest);
            got == [] || got == ReadLog(rest) || (got != [] && got[0] != r && got[1..] == ReadLog(rest))
  {
    LongSkips(r, rest);
    LeftIsLine(r);
    var a :| Left(r) == a + "\n" && OneLine(a) && |a| < LL_BUFSIZ_4K - 1;
    OneLineRead(a, rest);
    ReadPlain(Left(r));
    hide ReadLine, ReadHeader, Left, ReadLog;
  }

  lemma {:induction false} NewlineEndsLog(rest: string)
    ensures ReadLog("\n" + rest) == []
  {
    OneLineRead("", rest);
    assert "" + "\n" == "\n";
    assert "\n"[1..] == "";
    assert SkipSpace("\n") == SkipSpace("") == "";
  }

  /** A line that just fills the buffer: what follows its newline is lost. */
  lemma {:induction false} FullEndsLog(r: Record, rest: string)
    requires Typed(r) && PlainTexts(r.texts) && |Line(r)| == LL_BUFSIZ_4K
    ensures |ReadLog(Line(r) + rest)| <= 1
  {
    TwoChunks(r, rest);
    NewlineEndsLog(rest);
    LineIsContent(r);
    assert Left(r) == "\n";
    hide Line, Left, Taken, ReadLog, ReadLine, ReadHeader;
  }

  // -------------------------------------------------------------------
  // Exactly
  // -------------------------------------------------------------------

  lemma {:induction false} AtMostOneEach(rs: seq<Record>, s: string)
    requires forall i :: 0 <= i < |rs| ==> Typed(rs[i]) && PlainTexts(rs[i].texts)
    ensures |ReadLog(Lines(rs) + s)| <= |rs| + |ReadLog(s)|
  {
    hide Typed, PlainTexts, Line, ReadLog, Fits;
    if rs == [] {
      assert Lines(rs) + s == s;
    } else {
      var rest := Lines(rs[1..]) + s;
      LinesSplit(rs, s);
      AtMostOneEach(rs[1..], s);
      OneAtMost(rs[0], rest);
    }
  }

  lemma {:induction false} OneAtMost(r: Record, rest: string)
    requires Typed(r) && PlainTexts(r.texts)
    ensures |ReadLog(Line(r) + rest)| <= 1 + |ReadLog(rest)|
  {
    TypedClean(r);
    hide Typed, PlainTexts, Line, ReadLog, Fits;
    if |Line(r)| < LL_BUFSIZ_4K {
      FitsIsRead(r, rest);
    } else if |Line(r)| == LL_BUFSIZ_4K {
      FullEndsLog(r, rest);
    } else {
      LongIsLost(r, rest);
    }
  }

  /** A record that always fits. */
  function Plainest(): Record {
    Record(JobPend, 1, [1], [])
  }

  lemma {:induction false} PlainestFits()
    ensures Fits(Plainest()) && ReadLog(Line(Plainest())) == [Plainest()]
  {
    var r := Plainest();
    assert Typed(r) && PlainTexts(r.texts);
    LineLength(r);
    TypedClean(r);
    FitsIsRead(r, "");
    assert Line(r) + "" == Line(r) && ReadLog("") == [];
  }

  /** If the first record does not fit, some continuation is not read. */
  lemma {:induction false} FirstLost(rs: seq<Record>)
    requires rs != [] && (forall i :: 0 <= i < |rs| ==> Typed(rs[i])) && !Fits(rs[0])
    ensures !Carries(rs)
  {
    var s := Line(Plainest());
    PlainestFits();
    TypedClean(rs[0]);
    LogPlain(Lines(rs) + s);
    hide Typed, Line, ReadLog, Fits, Plainest;
    var got := ReadLog(Lines(rs) + s);
    if got == rs + ReadLog(s) {
      assert forall i :: 0 <= i < |rs| ==> got[i] == rs[i];
      var rest := Lines(rs[1..]) + s;
      LinesSplit(rs, s);
      AtMostOneEach(rs[1..], s);
      if |Line(rs[0])| == LL_BUFSIZ_4K {
        FullEndsLog(rs[0], rest);
      } else {
        LongIsLost(rs[0], rest);
      }
    }
  }

  /** A log comes back record for record, and stays readable behind them,
      exactly if every record fits: no quote and no newline in a string, and a
      line shorter than the buffer. */
  lemma {:induction false} CarriesExactly(rs: seq<Record>)
    requires forall i :: 0 <= i < |rs| ==> Typed(rs[i])
    ensures Carries(rs) <==> forall i :: 0 <= i < |rs| ==> Fits(rs[i])
  {
    hide Typed, Fits;
    if forall i :: 0 <= i < |rs| ==> Fits(rs[i]) {
      forall s
        ensures ReadLog(Lines(rs) + s) == rs + ReadLog(s)
      {
        FitsAreRead(rs, s);
      }
    } else {
      NotCarried(rs);
    }
  }

  lemma {:induction false} NotCarried(rs: seq<Record>)
    requires forall i :: 0 <= i < |rs| ==> Typed(rs[i])
    requires exists i :: 0 <= i < |rs| && !Fits(rs[i])
    ensures !Carries(rs)
  {
    hide Typed, Fits, ReadLog, Line;
    if !Fits(rs[0]) {
      FirstLost(rs);
    } else {
      var i :| 0 <= i < |rs| && !Fits(rs[i]);
      assert rs[1..][i - 1] == rs[i];
      NotCarried(rs[1..]);
      var s :| ReadLog(Lines(rs[1..]) + s) != rs[1..] + ReadLog(s);
      LinesSplit(rs, s);
      FitsIsRead(rs[0], Lines(rs[1..]) + s);
      SameTail(rs[0], ReadLog(Lines(rs[1..]) + s), rs[1..] + ReadLog(s));
      assert rs + ReadLog(s) == [rs[0]] + (rs[1..] + ReadLog(s));
      assert ReadLog(Lines(rs) + s) != rs + ReadLog(s);
    }
  }

  lemma {:induction false} SameTail(r: Record, a: seq<Record>, b: seq<Record>)
    ensures [r] + a == [r] + b ==> a == b
  {
    assert ([r] + a)[1..] == a && ([r] + b)[1..] == b;
  }
}
