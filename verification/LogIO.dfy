/**
 The writers append to a stream, the parsers advance a cursor, and the replay
 loop takes the file line by line.
 */
module LogIO {
  import opened LogFormat
  import L = LogFile
  import P = DependencyProofs

  lemma {:induction false} NoNumbers()
    ensures NumsText([]) == ""
  {
  }

  lemma {:induction false} OneMoreNumber(vs: seq<int>, i: nat)
    requires i < |vs|
    ensures NumsText(vs[..i + 1]) == NumsText(vs[..i]) + (" " + P.ShowInt(vs[i]))
  {
    assert vs[..i + 1] == vs[..i] + [vs[i]];
    NumsSplit(vs[..i], [vs[i]]);
    assert [vs[i]][1..] == [] && NumsText([vs[i]]) == " " + P.ShowInt(vs[i]) + "";
  }

  lemma {:induction false} NoTexts()
    ensures TextsText([]) == ""
  {
  }

  lemma {:induction false} TextsSplit(a: seq<string>, b: seq<string>)
    ensures TextsText(a + b) == TextsText(a) + TextsText(b)
  {
    if a == [] {
      assert a + b == b;
    } else {
      assert (a + b)[0] == a[0] && (a + b)[1..] == a[1..] + b;
      TextsSplit(a[1..], b);
    }
  }

  lemma {:induction false} OneMoreText(ss: seq<string>, i: nat)
    requires i < |ss|
    ensures TextsText(ss[..i + 1]) == TextsText(ss[..i]) + Quoted(ss[i])
  {
    assert ss[..i + 1] == ss[..i] + [ss[i]];
    TextsSplit(ss[..i], [ss[i]]);
    assert [ss[i]][1..] == [] && TextsText([ss[i]]) == Quoted(ss[i]) + "";
  }

  lemma {:induction false} LineParts(before: string, name: string, hdr: string, nums: string, texts: string)
    ensures before + name + hdr + nums + texts + "\n" == before + (name + (hdr + (nums + (texts + "\n"))))
  {
    assert nums + texts + "\n" == nums + (texts + "\n");
    assert hdr + nums + texts + "\n" == hdr + (nums + (texts + "\n"));
    assert name + hdr + nums + texts + "\n" == name + (hdr + (nums + (texts + "\n")));
  }

  class Stream {
    var text: string

    constructor ()
      ensures text == ""
    {
      text := "";
    }

    method PutNumbers(vs: seq<int>)
      modifies this
      ensures text == old(text) + NumsText(vs)
    {
      hide P.ShowInt, NumsText;
      NoNumbers();
      var i := 0;
      assert vs[..0] == [];
      while i < |vs|
        invariant 0 <= i <= |vs| && text == old(text) + NumsText(vs[..i])
      {
        OneMoreNumber(vs, i);
        assert old(text) + (NumsText(vs[..i]) + (" " + P.ShowInt(vs[i]))) == text + (" " + P.ShowInt(vs[i]));
        text := text + (" " + P.ShowInt(vs[i]));
        i := i + 1;
      }
      assert vs[..i] == vs;
    }

    /** write_qstr for each string field */
    method PutTexts(ss: seq<string>)
      modifies this
      ensures text == old(text) + TextsText(ss)
    {
      hide Quoted, TextsText;
      NoTexts();
      var i := 0;
      assert ss[..0] == [];
      while i < |ss|
        invariant 0 <= i <= |ss| && text == old(text) + TextsText(ss[..i])
      {
        OneMoreText(ss, i);
        assert old(text) + (TextsText(ss[..i]) + Quoted(ss[i])) == text + Quoted(ss[i]);
        text := text + Quoted(ss[i]);
        i := i + 1;
      }
      assert ss[..i] == ss;
    }

    /** write_hdr and the rest of log_write_* */
    method Write(r: Record)
      modifies this
      ensures text == old(text) + Line(r)
    {
      hide NameOf, NumsText, TextsText, Printed;
      text := text + NameOf(r.event);
      PutNumbers([LOG_VERSION, r.time]);
      PutNumbers(Printed(r));
      PutTexts(r.texts);
      LineParts(old(text), NameOf(r.event), NumsText([LOG_VERSION, r.time]), NumsText(Printed(r)), TextsText(r.texts));
      text := text + "\n";
    }
  }

  /** The numbers got so far and those still to scan make the whole. */
  ghost predicate NumsAhead(all: Opt<Scan<seq<int>>>, got: seq<int>, ws: seq<Width>, s: string) {
    var left := ScanNums(ws, s);
    if left.Nope? then all.Nope? else all == Yes(Scan(got + left.value.value, left.value.rest))
  }

  lemma {:induction false} NumsAheadStart(ws: seq<Width>, s: string)
    ensures NumsAhead(ScanNums(ws, s), [], ws, s)
  {
    var left := ScanNums(ws, s);
    if left.Yes? { assert [] + left.value.value == left.value.value; }
  }

  lemma {:induction false} NumsAheadStep(all: Opt<Scan<seq<int>>>, got: seq<int>, ws: seq<Width>, s: string)
    requires ws != [] && NumsAhead(all, got, ws, s)
    ensures var n := ScanNumber(s);
            if n.Nope? then all.Nope?
            else NumsAhead(all, got + [Convert(ws[0], n.value.value)], ws[1..], n.value.rest)
  {
    hide ScanNumber, Convert;
    var n := ScanNumber(s);
    if n.Yes? {
      var left := ScanNums(ws[1..], n.value.rest);
      var v := Convert(ws[0], n.value.value);
      if left.Yes? { assert got + ([v] + left.value.value) == (got + [v]) + left.value.value; }
    }
  }

  lemma {:induction false} NumsAheadEnd(all: Opt<Scan<seq<int>>>, got: seq<int>, s: string)
    requires NumsAhead(all, got, [], s)
    ensures all == Yes(Scan(got, s))
  {
    assert got + [] == got;
  }

  ghost predicate TextsAhead(all: Opt<seq<string>>, got: seq<string>, sizes: seq<nat>, s: string) {
    var left := ReadTexts(sizes, s);
    if left.Nope? then all.Nope? else all == Yes(got + left.value)
  }

  lemma {:induction false} TextsAheadStart(sizes: seq<nat>, s: string)
    ensures TextsAhead(ReadTexts(sizes, s), [], sizes, s)
  {
    var left := ReadTexts(sizes, s);
    if left.Yes? { assert [] + left.value == left.value; }
  }

  lemma {:induction false} TextsAheadStep(all: Opt<seq<string>>, got: seq<string>, sizes: seq<nat>, s: string)
    requires sizes != [] && TextsAhead(all, got, sizes, s)
    ensures var t := ReadQstr(s, sizes[0]);
            if t.Nope? then all.Nope?
            else TextsAhead(all, got + [t.value.value], sizes[1..], t.value.rest)
  {
    hide ReadQstr;
    var t := ReadQstr(s, sizes[0]);
    if t.Yes? {
      var left := ReadTexts(sizes[1..], t.value.rest);
      if left.Yes? { assert got + ([t.value.value] + left.value) == (got + [t.value.value]) + left.value; }
    }
  }

  lemma {:induction false} TextsAheadEnd(all: Opt<seq<string>>, got: seq<string>, s: string)
    requires TextsAhead(all, got, [], s)
    ensures all == Yes(got)
  {
    assert got + [] == got;
  }

  /** A pointer into a line, at what is still to read. */
  class Cursor {
    var rest: string

    constructor (s: string)
      ensures rest == s
    {
      rest := s;
    }

    method Number(w: Width) returns (v: Opt<int>)
      modifies this
      ensures var s := ScanNumber(old(rest));
              if s.Nope? then v == Nope && rest == old(rest)
              else v == Yes(Convert(w, s.value.value)) && rest == s.value.rest
    {
      var s := ScanNumber(rest);
      if s.Nope? {
        return Nope;
      }
      rest := s.value.rest;
      return Yes(Convert(w, s.value.value));
    }

    /** sscanf over the number fields */
    method Numbers(ws: seq<Width>) returns (vs: Opt<seq<int>>)
      modifies this
      ensures var s := ScanNums(ws, old(rest));
              if s.Nope? then vs == Nope else vs == Yes(s.value.value) && rest == s.value.rest
    {
      hide ScanNumber, Convert, ScanNums, NumsAhead;
      var got: seq<int> := [];
      var i := 0;
      assert ws[0..] == ws;
      NumsAheadStart(ws, rest);
      while i < |ws|
        invariant 0 <= i <= |ws|
        invariant NumsAhead(ScanNums(ws, old(rest)), got, ws[i..], rest)
      {
        assert ws[i..][0] == ws[i] && ws[i..][1..] == ws[i + 1..];
        NumsAheadStep(ScanNums(ws, old(rest)), got, ws[i..], rest);
        var v := Number(ws[i]);
        if v.Nope? {
          return Nope;
        }
        got := got + [v.value];
        i := i + 1;
      }
      assert ws[i..] == [];
      NumsAheadEnd(ScanNums(ws, old(rest)), got, rest);
      return Yes(got);
    }

    /** read_qstr */
    method Text(size: nat) returns (t: Opt<string>)
      modifies this
      ensures var s := ReadQstr(old(rest), size);
              if s.Nope? then t == Nope else t == Yes(s.value.value) && rest == s.value.rest
    {
      var s := rest;
      while s != [] && s[0] == ' '
        invariant SkipBlanks(s) == SkipBlanks(rest)
        decreases |s|
      {
        s := s[1..];
      }
      if s == [] || s[0] != '\"' {
        return Nope;
      }
      s := s[1..];
      var n := 0;
      while n < |s| && s[n] != '\"'
        invariant 0 <= n <= |s| && n + QuoteAt(s[n..]) == QuoteAt(s)
      {
        assert s[n..][1..] == s[n + 1..];
        n := n + 1;
      }
      if n == |s| || n >= size {
        return Nope;
      }
      rest := s[n + 1..];
      return Yes(s[..n]);
    }

    method Texts(sizes: seq<nat>) returns (ts: Opt<seq<string>>)
      modifies this
      ensures ts == ReadTexts(sizes, old(rest))
    {
      hide ReadQstr, ReadTexts, TextsAhead;
      var got: seq<string> := [];
      var i := 0;
      assert sizes[0..] == sizes;
      TextsAheadStart(sizes, rest);
      while i < |sizes|
        invariant 0 <= i <= |sizes|
        invariant TextsAhead(ReadTexts(sizes, old(rest)), got, sizes[i..], rest)
      {
        assert sizes[i..][0] == sizes[i] && sizes[i..][1..] == sizes[i + 1..];
        TextsAheadStep(ReadTexts(sizes, old(rest)), got, sizes[i..], rest);
        var t := Text(sizes[i]);
        if t.Nope? {
          return Nope;
        }
        got := got + [t.value];
        i := i + 1;
      }
      assert sizes[i..] == [];
      TextsAheadEnd(ReadTexts(sizes, old(rest)), got, rest);
      return Yes(got);
    }
  }

  /** parse_event_type */
  method ParseEventType(name: string) returns (e: Opt<Event>)
    ensures e == EventOf(name, 0)
  {
    var i := 0;
    while i < |EVENTS|
      invariant 0 <= i <= |EVENTS| && EventOf(name, i) == EventOf(name, 0)
    {
      if name == NameOf(EVENTS[i]) {
        return Yes(EVENTS[i]);
      }
      i := i + 1;
    }
    return Nope;
  }

  /** log_parse_*: what was written comes back, by LogFormat.LineRoundTrip */
  method ParsePayload(event: Event, time: int, s: string) returns (r: Opt<Record>)
    ensures r == ReadPayload(event, time, s)
  {
    var c := new Cursor(s);
    var nums := c.Numbers(SchemaOf(event).nums);
    if nums.Nope? {
      return Nope;
    }
    var texts := c.Texts(SchemaOf(event).texts);
    if texts.Nope? {
      return Nope;
    }
    return Yes(Record(event, time, nums.value, texts.value));
  }

  /** fgets on what is left of the file */
  method Fgets(s: string) returns (line: string, rest: string)
    requires s != ""
    ensures var n := L.LineEnd(s, LL_BUFSIZ_4K - 1); line == s[..n] && rest == s[n..]
  {
    var n := 0;
    assert s[0..] == s;
    while n < |s| && n < LL_BUFSIZ_4K - 1 && s[n] != '\n'
      invariant 0 <= n <= |s| && n <= LL_BUFSIZ_4K - 1
      invariant n + L.LineEnd(s[n..], LL_BUFSIZ_4K - 1 - n) == L.LineEnd(s, LL_BUFSIZ_4K - 1)
    {
      assert s[n..][1..] == s[n + 1..];
      n := n + 1;
    }
    if n < |s| && n < LL_BUFSIZ_4K - 1 {
      n := n + 1;
    }
    return s[..n], s[n..];
  }

  /** The loop of jobs_replay over the records of a file */
  method ReadRecords(text: string) returns (rs: seq<Record>)
    ensures rs == L.ReadLog(text)
  {
    rs := [];
    var s := text;
    while s != ""
      invariant rs + L.ReadLog(s) == L.ReadLog(text)
      decreases |s|
    {
      ghost var before := s;
      var line;
      line, s := Fgets(s);
      ReadSplit(before, line, s);
      hide L.ReadLog, L.ReadChunk, ReadHeader, ReadLine, L.LineEnd;
      var hdr := ReadHeader(line);
      ChunkCases(line, L.ReadLog(s));
      if hdr.Nope? {
        assert rs + [] == rs;
        return;
      }
      LineCases(line);
      var event := ParseEventType(hdr.value.value.0);
      if event.Yes? {
        var r := ParsePayload(event.value, hdr.value.value.1, hdr.value.rest);
        if r.Yes? {
          assert rs + ([r.value] + L.ReadLog(s)) == rs + [r.value] + L.ReadLog(s);
          rs := rs + [r.value];
        }
      }
    }
    assert rs + [] == rs;
  }

  lemma {:induction false} ReadSplit(all: string, line: string, rest: string)
    requires all != "" && line == all[..L.LineEnd(all, LL_BUFSIZ_4K - 1)] && rest == all[L.LineEnd(all, LL_BUFSIZ_4K - 1)..]
    ensures line != "" && |rest| < |all| && L.ReadLog(all) == L.ReadChunk(line, L.ReadLog(rest))
  {
    assert line + rest == all;
    hide L.ReadLog, L.ReadChunk;
    L.ChunkRead(line, rest);
  }

  lemma {:induction false} ChunkCases(line: string, rest: seq<Record>)
    ensures ReadHeader(line).Nope? ==> L.ReadChunk(line, rest) == []
    ensures ReadHeader(line).Yes? && ReadLine(line).Nope? ==> L.ReadChunk(line, rest) == rest
    ensures ReadHeader(line).Yes? && ReadLine(line).Yes? ==> L.ReadChunk(line, rest) == [ReadLine(line).value] + rest
  {
    hide ReadHeader, ReadLine;
    assert [] + rest == rest;
  }

  lemma {:induction false} LineCases(line: string)
    requires ReadHeader(line).Yes?
    ensures var hdr := ReadHeader(line);
            var event := EventOf(hdr.value.value.0, 0);
            ReadLine(line) == if event.Nope? then Nope else ReadPayload(event.value, hdr.value.value.1, hdr.value.rest)
  {
  }
}
