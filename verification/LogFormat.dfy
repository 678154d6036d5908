/**
 The text of the event log: what log_write_* prints for each of the eleven
 record types, and what log_read_hdr and log_parse_* make of a line.
 */
module LogFormat {
  import opened Dependency
  import P = DependencyProofs

  datatype Opt<+T> = Nope | Yes(value: T)

  /** %ld, %d, %u and %lu */
  datatype Width = Long | Int | UInt | ULong

  datatype Event = JobNew | JobStart | JobFork | JobSignal | JobFinish | JobPendSusp | JobPendResume | JobSusp
                 | JobMove | JobPriority | JobPend

  /** The numbers of a record in the order they are printed, then the sizes of
      its string fields. */
  datatype Schema = Schema(nums: seq<Width>, texts: seq<nat>)

  function SchemaOf(e: Event): Schema {
    match e
    case JobNew => Schema([Long, Long, Int, Int, Int, Int, UInt, UInt, Int, Int, Long, Long, Int, Int, Int, ULong, ULong, UInt],
                          [64, 64, 64, 64, 64, 1024, 256, 4096])
    case JobStart => Schema([Long, Int, Int, Int], [64, 64, 4096])
    case JobFork => Schema([Long, Int], [])
    case JobSignal => Schema([Long, Int, UInt], [])
    case JobFinish => Schema([Long, UInt, Int, Int], [])
    case JobPendSusp => Schema([Long], [])
    case JobPendResume => Schema([Long], [])
    case JobSusp => Schema([Long], [])
    case JobMove => Schema([Long], [64, 64])
    case JobPriority => Schema([Long, Int, Int], [])
    case JobPend => Schema([Long], [])
  }

  function NameOf(e: Event): string {
    match e
    case JobNew => "JOB_NEW"
    case JobStart => "JOB_START"
    case JobFork => "JOB_FORK"
    case JobSignal => "JOB_SIGNAL"
    case JobFinish => "JOB_FINISH"
    case JobPendSusp => "JOB_PEND_SUSP"
    case JobPendResume => "JOB_PEND_RESUME"
    case JobSusp => "JOB_SUSP"
    case JobMove => "JOB_MOVE"
    case JobPriority => "JOB_PRIORITY"
    case JobPend => "JOB_PEND"
  }

  /** A record: its type, the time of the event, its fields. */
  datatype Record = Record(event: Event, time: int, nums: seq<int>, texts: seq<string>)

  // -------------------------------------------------------------------
  // Writing
  // -------------------------------------------------------------------

  const LOG_VERSION := 1

  function NumsText(vs: seq<int>): string {
    if vs == [] then "" else " " + P.ShowInt(vs[0]) + NumsText(vs[1..])
  }

  function Quoted(s: string): string {
    " \"" + s + "\""
  }

  function TextsText(ss: seq<string>): string {
    if ss == [] then "" else Quoted(ss[0]) + TextsText(ss[1..])
  }

  /** JOB_FINISH prints its time once more at the end. */
  function Printed(r: Record): seq<int> {
    if r.event == JobFinish then r.nums + [r.time] else r.nums
  }

  function Body(r: Record): string {
    NumsText(Printed(r)) + (TextsText(r.texts) + "\n")
  }

  /** log_write_*: one line */
  function Line(r: Record): string {
    NameOf(r.event) + (NumsText([LOG_VERSION, r.time]) + Body(r))
  }

  // -------------------------------------------------------------------
  // Reading
  // -------------------------------------------------------------------

  function SkipSpace(s: string): string {
    if s != [] && IsSpace(s[0]) then SkipSpace(s[1..]) else s
  }

  function DigitCount(s: string): (n: nat)
    ensures n <= |s|
  {
    if s != [] && IsDigit(s[0]) then 1 + DigitCount(s[1..]) else 0
  }

  datatype Scan<T> = Scan(value: T, rest: string)

  /** What scanf matches for an integer: blanks, a sign, digits */
  function ScanNumber(s: string): Opt<Scan<int>> {
    var t := SkipSpace(s);
    var signed := t != [] && (t[0] == '-' || t[0] == '+');
    var u := if signed then t[1..] else t;
    var n := DigitCount(u);
    if n == 0 then Nope
    else Yes(Scan(Signed(signed && t[0] == '-', Value(u, 0, n)), u[n..]))
  }

  const TWO32 := 0x1_0000_0000
  const TWO64 := 0x1_0000_0000_0000_0000

  /** The conversion to the field's type: 64-bit results saturate, and 32-bit
      fields take the low half. */
  function Convert(w: Width, v: int): int {
    match w
    case Long => Saturate(v)
    case Int => var u := Saturate(v) % TWO32; if u >= TWO32 / 2 then u - TWO32 else u
    case ULong => if v >= TWO64 || v <= -TWO64 then TWO64 - 1 else v % TWO64
    case UInt => (if v >= TWO64 || v <= -TWO64 then TWO64 - 1 else v % TWO64) % TWO32
  }

  predicate InRange(w: Width, v: int) {
    match w
    case Long => -INT64_MAX - 1 <= v <= INT64_MAX
    case Int => -TWO32 / 2 <= v < TWO32 / 2
    case UInt => 0 <= v < TWO32
    case ULong => 0 <= v < TWO64
  }

  function ScanNums(ws: seq<Width>, s: string): Opt<Scan<seq<int>>> {
    if ws == [] then Yes(Scan([], s))
    else
      var first := ScanNumber(s);
      if first.Nope? then Nope
      else
        var rest := ScanNums(ws[1..], first.value.rest);
        if rest.Nope? then Nope
        else Yes(Scan([Convert(ws[0], first.value.value)] + rest.value.value, rest.value.rest))
  }

  function SkipBlanks(s: string): string {
    if s != [] && s[0] == ' ' then SkipBlanks(s[1..]) else s
  }

  /** strchr(s, '"'): |s| when there is none */
  function QuoteAt(s: string): (n: nat)
    ensures n <= |s|
  {
    if s == [] || s[0] == '\"' then 0 else 1 + QuoteAt(s[1..])
  }

  /** read_qstr */
  function ReadQstr(s: string, size: nat): Opt<Scan<string>> {
    var t := SkipBlanks(s);
    if t == [] || t[0] != '\"' then Nope
    else
      var u := t[1..];
      var n := QuoteAt(u);
      if n == |u| || n >= size then Nope else Yes(Scan(u[..n], u[n + 1..]))
  }

  function ReadTexts(sizes: seq<nat>, s: string): Opt<seq<string>> {
    if sizes == [] then Yes([])
    else
      var first := ReadQstr(s, sizes[0]);
      if first.Nope? then Nope
      else
        var rest := ReadTexts(sizes[1..], first.value.rest);
        if rest.Nope? then Nope else Yes([first.value.value] + rest.value)
  }

  function WordEnd(s: string, max: nat): (n: nat)
    ensures n <= |s| && n <= max
  {
    if s == [] || max == 0 || IsSpace(s[0]) then 0 else 1 + WordEnd(s[1..], max - 1)
  }

  const EVENTS := [JobNew, JobStart, JobFork, JobSignal, JobFinish, JobPendSusp, JobPendResume, JobSusp,
                   JobMove, JobPriority, JobPend]

  /** parse_event_type */
  function EventOf(name: string, from: nat): Opt<Event>
    requires from <= |EVENTS|
    decreases |EVENTS| - from
  {
    if from == |EVENTS| then Nope
    else if name == NameOf(EVENTS[from]) then Yes(EVENTS[from])
    else EventOf(name, from + 1)
  }

  /** log_parse_* */
  function ReadPayload(event: Event, time: int, s: string): Opt<Record> {
    var nums := ScanNums(SchemaOf(event).nums, s);
    if nums.Nope? then Nope
    else
      var texts := ReadTexts(SchemaOf(event).texts, nums.value.rest);
      if texts.Nope? then Nope else Yes(Record(event, time, nums.value.value, texts.value))
  }

  /** log_read_hdr: the name, then version and time */
  function ReadHeader(line: string): Opt<Scan<(string, int)>> {
    var t := SkipSpace(line);
    var n := WordEnd(t, 63);
    var version := ScanNumber(t[n..]);
    if n == 0 || version.Nope? then Nope
    else
      var time := ScanNumber(version.value.rest);
      if time.Nope? then Nope else Yes(Scan((t[..n], Convert(Long, time.value.value)), time.value.rest))
  }

  /** A line: Nope for an unknown type or any malformed part */
  function ReadLine(line: string): Opt<Record> {
    var hdr := ReadHeader(line);
    if hdr.Nope? then Nope
    else
      var event := EventOf(hdr.value.value.0, 0);
      if event.Nope? then Nope else ReadPayload(event.value, hdr.value.value.1, hdr.value.rest)
  }

  // -------------------------------------------------------------------
  // What the format can carry
  // -------------------------------------------------------------------

  predicate Clean(s: string) {
    forall i :: 0 <= i < |s| ==> s[i] != '\"' && s[i] != '\n' && s[i] != '\0'
  }

  predicate NumsFit(ws: seq<Width>, vs: seq<int>) {
    |ws| == |vs| && forall i :: 0 <= i < |vs| ==> InRange(ws[i], vs[i])
  }

  predicate TextsFit(sizes: seq<nat>, ss: seq<string>) {
    |sizes| == |ss| && forall i :: 0 <= i < |ss| ==> Clean(ss[i]) && |ss[i]| < sizes[i]
  }

  const LL_BUFSIZ_4K := 4096

  predicate Fits(r: Record) {
    && InRange(Long, r.time) && NumsFit(SchemaOf(r.event).nums, r.nums)
    && TextsFit(SchemaOf(r.event).texts, r.texts) && |Line(r)| < LL_BUFSIZ_4K
  }

  // -------------------------------------------------------------------
  // Numbers come back
  // -------------------------------------------------------------------

  /** Nothing that could be taken for more of a number. */
  predicate Ends(s: string) {
    s == [] || !IsDigit(s[0])
  }

  lemma {:induction false} DigitsCounted(a: string, b: string)
    requires (forall i :: 0 <= i < |a| ==> IsDigit(a[i])) && Ends(b)
    ensures DigitCount(a + b) == |a|
  {
    if a == [] {
      assert a + b == b;
    } else {
      assert (a + b)[0] == a[0] && (a + b)[1..] == a[1..] + b;
      DigitsCounted(a[1..], b);
    }
  }

  lemma {:induction false} ValueOfPrefix(a: string, b: string, n: nat)
    requires n <= |a|
    ensures Value(a + b, 0, n) == Value(a, 0, n)
  {
    if n > 0 {
      ValueOfPrefix(a, b, n - 1);
      assert (a + b)[n - 1] == a[n - 1];
    }
  }

  lemma {:induction false} NatScanned(n: nat, rest: string)
    requires Ends(rest)
    ensures var s := P.ShowNat(n) + rest;
            DigitCount(s) == |P.ShowNat(n)| && Value(s, 0, |P.ShowNat(n)|) == n && s[|P.ShowNat(n)|..] == rest
  {
    var w := P.ShowNat(n);
    assert w[0..|w|] == w;
    P.ShowNatAt(w, 0, n);
    DigitsCounted(w, rest);
    ValueOfPrefix(w, rest, |w|);
  }

  lemma {:induction false} NatStarts(n: nat)
    ensures IsDigit(P.ShowNat(n)[0])
  {
    var w := P.ShowNat(n);
    assert w[0..|w|] == w;
    P.ShowNatAt(w, 0, n);
  }

  /** The sign, if there is one, and the digits after it. */
  lemma {:induction false} IntStarts(v: int, rest: string)
    ensures var t := P.ShowInt(v) + rest;
            && t != [] && !IsSpace(t[0]) && t[0] != '+' && (t[0] == '-' <==> v < 0)
            && (if v < 0 then t[1..] else t) == P.ShowNat(if v < 0 then -v else v) + rest
  {
    var t := P.ShowInt(v) + rest;
    if v < 0 {
      assert t[1..] == P.ShowNat(-v) + rest;
    } else {
      NatStarts(v);
      assert t[0] == P.ShowNat(v)[0];
    }
  }

  lemma {:induction false} SpaceSkipped(t: string)
    requires t != [] && !IsSpace(t[0])
    ensures SkipSpace(" " + t) == t && SkipSpace(t) == t
  {
    assert (" " + t)[1..] == t;
  }

  lemma {:induction false} NumberScanned(v: int, rest: string)
    requires Ends(rest)
    ensures ScanNumber(" " + P.ShowInt(v) + rest) == Yes(Scan(v, rest))
  {
    hide P.ShowInt, P.ShowNat, DigitCount, Value, SkipSpace, IsSpace, IsDigit;
    var t := P.ShowInt(v) + rest;
    assert " " + P.ShowInt(v) + rest == " " + t;
    IntStarts(v, rest);
    SpaceSkipped(t);
    NatScanned(if v < 0 then -v else v, rest);
    NatNonEmpty(if v < 0 then -v else v);
  }

  lemma {:induction false} NatNonEmpty(n: nat)
    ensures |P.ShowNat(n)| > 0
  {
  }

  lemma {:induction false} Converted(w: Width, v: int)
    requires InRange(w, v)
    ensures Convert(w, v) == v
  {
  }

  lemma {:induction false} NumsEnd(vs: seq<int>, rest: string)
    requires Ends(rest)
    ensures Ends(NumsText(vs) + rest)
  {
    if vs != [] { assert (NumsText(vs) + rest)[0] == ' '; } else { assert NumsText(vs) + rest == rest; }
  }

  lemma {:induction false} NumsScanned(ws: seq<Width>, vs: seq<int>, rest: string)
    requires NumsFit(ws, vs) && Ends(rest)
    ensures ScanNums(ws, NumsText(vs) + rest) == Yes(Scan(vs, rest))
  {
    hide P.ShowInt, Convert, InRange, ScanNumber;
    if vs == [] {
      assert NumsText(vs) + rest == rest;
    } else {
      var tail := NumsText(vs[1..]) + rest;
      assert NumsText(vs) + rest == " " + P.ShowInt(vs[0]) + tail;
      NumsEnd(vs[1..], rest);
      NumberScanned(vs[0], tail);
      Converted(ws[0], vs[0]);
      NumsScanned(ws[1..], vs[1..], rest);
      assert vs == [vs[0]] + vs[1..];
    }
  }

  // -------------------------------------------------------------------
  // Strings come back
  // -------------------------------------------------------------------

  lemma {:induction false} QuoteFound(s: string, rest: string)
    requires forall i :: 0 <= i < |s| ==> s[i] != '\"'
    ensures QuoteAt(s + "\"" + rest) == |s|
  {
    var t := s + "\"" + rest;
    if s != [] {
      assert t[0] == s[0] && t[1..] == s[1..] + "\"" + rest;
      QuoteFound(s[1..], rest);
    } else {
      assert t[0] == '\"';
    }
  }

  lemma {:induction false} QstrRead(s: string, rest: string, size: nat)
    requires Clean(s) && |s| < size
    ensures ReadQstr(Quoted(s) + rest, size) == Yes(Scan(s, rest))
  {
    var all := Quoted(s) + rest;
    var t := "\"" + s + "\"" + rest;
    var u := s + "\"" + rest;
    assert all[0] == ' ' && all[1..] == t;
    assert t[0] == '\"' && t[1..] == u;
    assert SkipBlanks(all) == t;
    QuoteFound(s, rest);
    assert u[..|s|] == s && u[|s| + 1..] == rest;
  }

  lemma {:induction false} QuoteWithin(s: string, i: nat, rest: string)
    requires i < |s| && s[i] == '\"'
    ensures QuoteAt(s + rest) <= i
  {
    var t := s + rest;
    if t[0] != '\"' {
      assert t[1..] == s[1..] + rest;
      QuoteWithin(s[1..], i - 1, rest);
    }
  }

  /** A string field comes back exactly if it has no quote and fits. */
  lemma {:induction false} QstrReadExactly(s: string, rest: string, size: nat)
    ensures ReadQstr(Quoted(s) + rest, size) == Yes(Scan(s, rest))
            <==> (forall i :: 0 <= i < |s| ==> s[i] != '\"') && |s| < size
  {
    var all := Quoted(s) + rest;
    var t := "\"" + s + "\"" + rest;
    var u := s + "\"" + rest;
    assert all[0] == ' ' && all[1..] == t;
    assert t[0] == '\"' && t[1..] == u;
    assert SkipBlanks(all) == t;
    if i :| 0 <= i < |s| && s[i] == '\"' {
      assert u == s + ("\"" + rest);
      QuoteWithin(s, i, "\"" + rest);
    } else {
      QuoteFound(s, rest);
      assert u[..|s|] == s && u[|s| + 1..] == rest;
    }
  }

  lemma {:induction false} TextsRead(sizes: seq<nat>, ss: seq<string>, rest: string)
    requires TextsFit(sizes, ss)
    ensures ReadTexts(sizes, TextsText(ss) + rest) == Yes(ss)
  {
    if ss != [] {
      var tail := TextsText(ss[1..]) + rest;
      assert TextsText(ss) + rest == Quoted(ss[0]) + tail;
      QstrRead(ss[0], tail, sizes[0]);
      TextsRead(sizes[1..], ss[1..], rest);
      assert ss == [ss[0]] + ss[1..];
    }
  }

  // -------------------------------------------------------------------
  // Lines come back
  // -------------------------------------------------------------------

  predicate Solid(s: string) {
    forall i :: 0 <= i < |s| ==> !IsSpace(s[i])
  }

  lemma {:induction false} WordRead(w: string, rest: string, max: nat)
    requires Solid(w) && |w| <= max && rest != [] && IsSpace(rest[0])
    ensures WordEnd(w + rest, max) == |w|
  {
    if w == [] {
      assert w + rest == rest;
    } else {
      assert (w + rest)[0] == w[0] && (w + rest)[1..] == w[1..] + rest;
      WordRead(w[1..], rest, max - 1);
    }
  }

  lemma {:induction false} NameSolid(e: Event)
    ensures Solid(NameOf(e)) && 0 < |NameOf(e)| <= 63
  {
  }

  lemma {:induction false} NameFound(e: Event)
    ensures EventOf(NameOf(e), 0) == Yes(e)
  {
    EventFrom(e, IndexOf(e), 0);
  }

  function IndexOf(e: Event): (i: nat)
    ensures i < |EVENTS| && EVENTS[i] == e
  {
    match e
    case JobNew => 0
    case JobStart => 1
    case JobFork => 2
    case JobSignal => 3
    case JobFinish => 4
    case JobPendSusp => 5
    case JobPendResume => 6
    case JobSusp => 7
    case JobMove => 8
    case JobPriority => 9
    case JobPend => 10
  }

  lemma {:induction false} EventFrom(e: Event, i: nat, from: nat)
    requires from <= i < |EVENTS| && EVENTS[i] == e
    ensures EventOf(NameOf(e), from) == Yes(e)
    decreases i - from
  {
    if from < i {
      NamesDiffer(EVENTS[from], e);
      EventFrom(e, i, from + 1);
    }
  }

  lemma {:induction false} NamesDiffer(d: Event, e: Event)
    ensures NameOf(d) == NameOf(e) ==> d == e
  {
  }

  /** JOB_FINISH's extra number is left unread. */
  lemma {:induction false} PayloadRead(r: Record)
    requires NumsFit(SchemaOf(r.event).nums, r.nums) && TextsFit(SchemaOf(r.event).texts, r.texts)
    ensures ReadPayload(r.event, r.time, Body(r)) == Yes(r)
  {
    var tail := TextsText(r.texts) + "\n";
    if r.event == JobFinish {
      var more := NumsText([r.time]) + tail;
      NumsSplit(r.nums, [r.time]);
      assert Body(r) == NumsText(r.nums) + more;
      assert more[0] == ' ';
      NumsScanned(SchemaOf(r.event).nums, r.nums, more);
    } else {
      TextsEnd(r.texts);
      NumsScanned(SchemaOf(r.event).nums, r.nums, tail);
      TextsRead(SchemaOf(r.event).texts, r.texts, "\n");
    }
  }

  lemma {:induction false} TextsEnd(ss: seq<string>)
    ensures Ends(TextsText(ss) + "\n")
  {
    if ss != [] { assert (TextsText(ss) + "\n")[0] == ' '; }
  }

  lemma {:induction false} NumsSplit(a: seq<int>, b: seq<int>)
    ensures NumsText(a + b) == NumsText(a) + NumsText(b)
  {
    if a == [] {
      assert a + b == b;
    } else {
      assert (a + b)[0] == a[0] && (a + b)[1..] == a[1..] + b;
      NumsSplit(a[1..], b);
    }
  }

  lemma {:induction false} HeaderRead(name: string, time: int, body: string)
    requires Solid(name) && 0 < |name| <= 63 && Ends(body) && InRange(Long, time)
    ensures ReadHeader(name + (NumsText([LOG_VERSION, time]) + body)) == Yes(Scan((name, time), body))
  {
    var one := " " + P.ShowInt(time) + body;
    var two := " " + P.ShowInt(LOG_VERSION) + one;
    assert [LOG_VERSION, time][1..] == [time] && [time][1..] == [];
    assert NumsText([time]) == " " + P.ShowInt(time) + "";
    assert NumsText([LOG_VERSION, time]) + body == two;
    var line := name + two;
    WordRead(name, two, 63);
    SpaceSkipped(line);
    assert line[..|name|] == name && line[|name|..] == two;
    assert Ends(one);
    NumberScanned(LOG_VERSION, one);
    NumberScanned(time, body);
    Converted(Long, time);
  }

  /** Reading a written line gives the record back. */
  lemma {:induction false} LineRoundTrip(r: Record)
    requires Fits(r)
    ensures ReadLine(Line(r)) == Yes(r)
  {
    NameSolid(r.event);
    BodyEnds(r);
    HeaderRead(NameOf(r.event), r.time, Body(r));
    NameFound(r.event);
    PayloadRead(r);
  }

  lemma {:induction false} BodyEnds(r: Record)
    ensures Ends(Body(r))
  {
    TextsEnd(r.texts);
    NumsEnd(Printed(r), TextsText(r.texts) + "\n");
  }
}
