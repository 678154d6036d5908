/**
 What the log loses: submissions the daemon accepts and a restart forgets or
 changes.
 */
module LogLosses {
  import opened Mbd
  import opened ManifestSteps
  import opened ManifestText
  import opened DurableLog
  import opened Witnesses
  import D = Dependency
  import F = LogFormat
  import L = LogFile
  import N = Names

  // -------------------------------------------------------------------
  // A quote in a job name
  // -------------------------------------------------------------------

  /** The field ends at the quote, and the next one does not begin there. */
  lemma {:induction false} BrokenQstr(x: string, y: string, rest: string, size: nat)
    requires L.Plain(x) && y != "" && y[0] != ' ' && y[0] != '\"'
    ensures var t := F.ReadQstr(F.Quoted(x + "\"" + y) + rest, size);
            t.Yes? ==> forall next: nat :: F.ReadQstr(t.value.rest, next).Nope?
  {
    var tail := y + "\"" + rest;
    assert F.Quoted(x + "\"" + y) + rest == F.Quoted(x) + tail;
    L.QstrFront(x, tail, size);
    assert tail[0] == y[0];
  }

  lemma {:induction false} BrokenTexts(sizes: seq<nat>, ss: seq<string>, x: string, y: string, rest: string)
    requires |sizes| == |ss| > 2 && L.Plain(ss[0]) && ss[1] == x + "\"" + y
    requires L.Plain(x) && y != "" && y[0] != ' ' && y[0] != '\"'
    ensures F.ReadTexts(sizes, F.TextsText(ss) + rest).Nope?
  {
    var tail := F.TextsText(ss[1..]) + rest;
    var more := F.TextsText(ss[1..][1..]) + rest;
    assert F.TextsText(ss) + rest == F.Quoted(ss[0]) + tail;
    assert tail == F.Quoted(ss[1]) + more;
    L.QstrFront(ss[0], tail, sizes[0]);
    BrokenQstr(x, y, more, sizes[1]);
    SecondFails(sizes[1..], tail);
  }

  lemma {:induction false} SecondFails(sizes: seq<nat>, s: string)
    requires |sizes| >= 2
    requires var t := F.ReadQstr(s, sizes[0]); t.Yes? ==> forall next: nat :: F.ReadQstr(t.value.rest, next).Nope?
    ensures F.ReadTexts(sizes, s).Nope?
  {
    hide F.ReadQstr;
    var t := F.ReadQstr(s, sizes[0]);
    if t.Yes? { assert F.ReadQstr(t.value.rest, sizes[1..][0]).Nope?; }
  }

  /** Such a JOB_NEW line has a header and no payload. */
  lemma {:induction false} BrokenNameNotRead(r: F.Record, x: string, y: string)
    requires L.Typed(r) && r.event == F.JobNew && L.Plain(r.texts[0]) && r.texts[1] == x + "\"" + y
    requires L.Plain(x) && y != "" && y[0] != ' ' && y[0] != '\"'
    ensures F.ReadHeader(F.Line(r)).Yes? && F.ReadLine(F.Line(r)).Nope?
  {
    F.NameSolid(r.event);
    F.BodyEnds(r);
    F.HeaderRead(F.NameOf(r.event), r.time, F.Body(r));
    F.NameFound(r.event);
    F.TextsEnd(r.texts);
    F.NumsScanned(F.SchemaOf(r.event).nums, r.nums, F.TextsText(r.texts) + "\n");
    BrokenTexts(F.SchemaOf(r.event).texts, r.texts, x, y, "\n");
  }

  const QUOTED := "a\"b"

  function QuotedJob(): Job {
    Prepared(Ask(QUEUE, [], []).(words := NoWords().(name := QUOTED)), 1, 1, 0, 1, 1)
  }

  /** The line it is written as. */
  function QuotedRecord(): F.Record {
    F.Record(F.JobNew, 1, [1, 0, 0, 0, 0, 0, 7, 7, 1, 1, 0, 0, 1, 1, 0, 0, 0, 0], ["u", QUOTED, "q", "", "", "", "", ""])
  }

  lemma {:induction false} QuotedEncoded()
    ensures Encoded(NewEvent(1, QuotedJob(), 1)) == QuotedRecord()
  {
    var w := KeptWords(NoWords().(name := QUOTED));
    assert LoggedWords(w) == w;
  }

  lemma {:induction false} QuotedNums()
    ensures F.NumsFit(F.SchemaOf(F.JobNew).nums, QuotedRecord().nums)
  {
  }

  lemma {:induction false} QuotedTyped()
    ensures L.Typed(QuotedRecord()) && L.TextsSize(QuotedRecord().texts) <= 24
    ensures forall i :: 0 <= i < 8 ==> L.OneLine(QuotedRecord().texts[i])
  {
    QuotedNums();
    hide F.NumsFit, L.TextsTyped;
    QuotedTexts();
    FewTexts(QuotedRecord().texts);
  }

  lemma {:induction false} QuotedTexts()
    ensures L.TextsTyped(F.SchemaOf(F.JobNew).texts, QuotedRecord().texts)
    ensures forall i :: 0 <= i < 8 ==> L.OneLine(QuotedRecord().texts[i])
  {
    var ss := QuotedRecord().texts;
    assert ss[0] == "u" && ss[1] == QUOTED && ss[2] == "q";
    assert forall i :: 3 <= i < 8 ==> ss[i] == "";
  }

  lemma {:induction false} FewTexts(ss: seq<string>)
    requires |ss| == 8 && forall i :: 0 <= i < 8 ==> |ss[i]| <= 3
    ensures L.TextsSize(ss) <= 24
  {
    EachShort(ss, 3);
  }

  lemma {:induction false} EachShort(ss: seq<string>, n: nat)
    requires forall i :: 0 <= i < |ss| ==> |ss[i]| <= n
    ensures L.TextsSize(ss) <= n * |ss|
  {
    if ss != [] { EachShort(ss[1..], n); }
  }

  lemma {:induction false} TextsInLine(ss: seq<string>)
    requires forall i :: 0 <= i < |ss| ==> L.OneLine(ss[i])
    ensures L.OneLine(F.TextsText(ss))
  {
    if ss != [] { TextsInLine(ss[1..]); }
  }

  lemma {:induction false} ContentInLine(r: F.Record)
    requires forall i :: 0 <= i < |r.texts| ==> L.OneLine(r.texts[i])
    ensures L.OneLine(L.Content(r))
  {
    TextsInLine(r.texts);
    L.NumsOneLine(F.Printed(r));
    L.NumsOneLine([F.LOG_VERSION, r.time]);
    F.NameSolid(r.event);
    hide F.NumsText, F.TextsText, F.NameOf, F.Printed;
  }

  /** A short line that has a header and no payload leaves nothing. */
  lemma {:induction false} UnreadLine(r: F.Record)
    requires L.OneLine(L.Content(r)) && |F.Line(r)| < F.LL_BUFSIZ_4K
    requires F.ReadHeader(F.Line(r)).Yes? && F.ReadLine(F.Line(r)).Nope?
    ensures L.ReadLog(F.Line(r)) == []
  {
    L.LineIsContent(r);
    NothingRead();
    hide L.Content, F.Line, L.ReadLog, F.ReadLine, F.ReadHeader;
    L.OneLineRead(L.Content(r), "");
    assert L.Content(r) + "\n" + "" == F.Line(r);
  }

  /** Only that line is lost: what was written before it and what comes after
      it is read. */
  lemma {:induction false} OthersAreRead(before: seq<F.Record>, r: F.Record, rest: string)
    requires forall i :: 0 <= i < |before| ==> L.Typed(before[i]) && F.Fits(before[i])
    requires L.OneLine(L.Content(r)) && |F.Line(r)| < F.LL_BUFSIZ_4K
    requires F.ReadHeader(F.Line(r)).Yes? && F.ReadLine(F.Line(r)).Nope?
    ensures L.ReadLog(L.Lines(before) + F.Line(r) + rest) == before + L.ReadLog(rest)
  {
    hide L.OneLine, L.Content, F.Line, L.ReadLog, F.ReadLine, F.ReadHeader, L.Lines, L.Typed, F.Fits;
    LineSkipped(r, rest);
    L.CarriesExactly(before);
    CarriedBefore(before, F.Line(r), rest);
  }

  lemma {:induction false} CarriedBefore(before: seq<F.Record>, line: string, rest: string)
    requires L.Carries(before)
    ensures L.ReadLog(L.Lines(before) + line + rest) == before + L.ReadLog(line + rest)
  {
    hide L.ReadLog, L.Lines;
    assert L.Lines(before) + (line + rest) == L.Lines(before) + line + rest;
  }

  lemma {:induction false} LineSkipped(r: F.Record, rest: string)
    requires L.OneLine(L.Content(r)) && |F.Line(r)| < F.LL_BUFSIZ_4K
    requires F.ReadHeader(F.Line(r)).Yes? && F.ReadLine(F.Line(r)).Nope?
    ensures L.ReadLog(F.Line(r) + rest) == L.ReadLog(rest)
  {
    L.LineIsContent(r);
    hide L.Content, F.Line, L.ReadLog, F.ReadLine, F.ReadHeader;
    L.OneLineRead(L.Content(r), rest);
    assert L.Content(r) + "\n" + rest == F.Line(r) + rest;
    assert [] + L.ReadLog(rest) == L.ReadLog(rest);
  }

  lemma {:induction false} QuotedIsLost()
    ensures L.ReadLog(F.Line(QuotedRecord())) == []
  {
    QuotedTyped();
    hide L.Typed, F.Line, L.Content, L.ReadLog, F.ReadLine, F.ReadHeader;
    L.LineLength(QuotedRecord());
    BrokenNameNotRead(QuotedRecord(), "a", "b");
    ContentInLine(QuotedRecord());
    UnreadLine(QuotedRecord());
  }

  lemma {:induction false} QuotedSubmitted() returns (m: Tables)
    ensures Reachable(m) && m.jobs == map[1 := QuotedJob()] && m.manifest == [NewEvent(1, QuotedJob(), 1)]
  {
    EmptyBegins();
    var req := Ask(QUEUE, [], []).(words := NoWords().(name := QUOTED));
    assert GoodRequest(Empty(), req);
    Submitted(Empty(), req, 1, QuotedJob());
    GoesOn(Empty(), DoSubmit(req), 1);
    SubmitOne(Empty(), req, 1);
    m := Submit(Empty(), req, 1);
    NoRefs(map[1 := QuotedJob()], 1);
  }

  /** A job whose name has a quote in it is accepted, and gone after a restart. */
  lemma {:induction false} QuotedNameForgotten(groups: Groups) returns (m: Tables)
    ensures Reachable(m) && 1 in m.jobs
    ensures ReplayText(TextOf(m.manifest), groups, m.queues) == Some(Replayed(map[], [], [], []))
  {
    hide QuotedRecord, QuotedJob, Encoded, L.ReadLog, F.Line, Reachable;
    m := QuotedSubmitted();
    QuotedIsLost();
    QuotedEncoded();
    var rs := RecordsOf(m.manifest);
    assert rs == [QuotedRecord()] && rs[1..] == [];
    assert L.Lines(rs) == F.Line(QuotedRecord()) + L.Lines([]) == F.Line(QuotedRecord());
    assert DecodeAll([], groups) == Some([]);
  }

  // -------------------------------------------------------------------
  // A machine list past its field
  // -------------------------------------------------------------------

  function Blanks(n: nat): string {
    if n == 0 then "" else " " + Blanks(n - 1)
  }

  lemma {:induction false} BlanksSkipped(n: nat, s: string)
    ensures N.Words(Blanks(n) + s) == N.Words(s) && |Blanks(n)| == n
  {
    if n == 0 {
      assert Blanks(n) + s == s;
    } else {
      BlanksSkipped(n - 1, s);
      var rest := Blanks(n - 1) + s;
      assert Blanks(n) + s == " " + rest;
      OneBlankSkipped(rest);
    }
  }

  lemma {:induction false} OneBlankSkipped(s: string)
    ensures N.Words(" " + s) == N.Words(s)
  {
    assert (" " + s)[0] == ' ' && (" " + s)[1..] == s;
  }

  /** A machine list of n blanks and one name, from a client that asks for more
      hosts. */
  function FarName(n: nat, hosts: int): Request {
    Ask(QUEUE, [], []).(nhosts := hosts, machines := [N.HostId("h")], logged := if n < 1023 then [N.HostId("h")] else [],
                        words := NoWords().(machines := Blanks(n) + "h"))
  }

  lemma {:induction false} OneName(groups: Groups)
    requires "h" !in groups
    ensures Machines(groups, "h") == [N.HostId("h")]
  {
    var h := "h";
    N.FirstWord(h, "");
    assert h + "" == h && N.Words("") == [];
    assert N.Words(h) == [h] && [h][1..] == [] && [h][..0] == [];
    assert Flattened(groups, [h]) == [h] + Flattened(groups, []) == [h];
    assert Once([]) == [] && Once([h]) == [h];
  }

  lemma {:induction false} CutAway(n: nat)
    requires n < 4095
    ensures N.Cut(Blanks(n) + "h", 1024) == if n < 1023 then Blanks(n) + "h" else Blanks(1023)
  {
    BlanksSkipped(n, "h");
    if n >= 1023 { BlanksPrefix(n, 1023); }
  }

  lemma {:induction false} BlanksPrefix(n: nat, k: nat)
    requires k <= n
    ensures |Blanks(n)| == n && Blanks(n)[..k] == Blanks(k)
  {
    if k > 0 {
      BlanksPrefix(n - 1, k - 1);
    } else {
      BlanksSkipped(n, "");
    }
  }

  /** The daemon goes by the whole list, replay by its first 1023 characters:
      one host here, and there as many as asked for. */
  lemma {:induction false} FarNameChanged(n: nat, hosts: int, groups: Groups)
    requires "h" !in groups && n < 4095
    ensures GoodRequest(Empty(), FarName(n, hosts)) && RequestMeant(FarName(n, hosts), groups)
    ensures HostCountLogged(FarName(n, hosts)) <==> n < 1023 || hosts == 1
  {
    hide Blanks, N.Cut, N.Words;
    BlanksSkipped(n, "h");
    CutAway(n);
    FarMachines(n, groups);
    hide Machines;
    NoCondition();
  }

  lemma {:induction false} FarMachines(n: nat, groups: Groups)
    requires "h" !in groups
    ensures Machines(groups, Blanks(n) + "h") == [N.HostId("h")] && Machines(groups, Blanks(1023)) == []
  {
    hide Blanks;
    BlanksSkipped(n, "h");
    OneName(groups);
    BlanksSkipped(1023, "");
    assert Blanks(1023) + "" == Blanks(1023);
    NothingNamed(groups);
  }

  lemma {:induction false} NoCondition()
    ensures DepsOf("") == [] && Parses("")
  {
  }

  // -------------------------------------------------------------------
  // A line past its buffer
  // -------------------------------------------------------------------

  /** A condition of 4071 characters never fits the line it is logged on,
      whatever else the record holds. */
  lemma {:induction false} LongConditionLost(j: JobId, rec: NewRec)
    requires |rec.words.depend| >= 4071
    ensures !F.Fits(NewRecord(j, rec))
  {
    var r := NewRecord(j, rec);
    L.TextsLength(r.texts);
    LastText(r.texts);
    hide F.NumsText, F.TextsText, F.NameOf;
    L.LineIsContent(r);
  }

  lemma {:induction false} LastText(ss: seq<string>)
    requires ss != []
    ensures L.TextsSize(ss) >= |ss[|ss| - 1]|
  {
    if |ss| > 1 { LastText(ss[1..]); }
  }
}
