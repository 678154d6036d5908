/**
 The lines of the log, written out: which field of which event is where.
 */
module LogLines {
  import opened Mbd
  import opened ManifestText
  import F = LogFormat
  import P = DependencyProofs

  function Num(v: int): string {
    " " + P.ShowInt(v)
  }

  function Str(s: string): string {
    " \"" + s + "\""
  }

  function State(s: JobState): string {
    match s case Pending => " 1" case Held => " 2" case Running => " 3" case Exited => " 5" case Done => " 6"
  }

  /** The line of each event. */
  function LineOf(e: Event): string {
    match e
    case EvNew(j, r) =>
      "JOB_NEW 1" + Num(r.submitTime)
      + (Num(j) + Num(r.tag.id) + Num(r.tag.index)) + (Num(r.tag.start) + Num(r.tag.end) + Num(r.tag.stride))
      + (Num(r.uid) + Num(r.words.gid) + State(r.state)) + (Num(r.priority) + Num(r.beginTime) + Num(r.termTime))
      + (Num(r.cpus) + Num(r.nhosts) + " 0") + (Num(r.mem) + Num(r.storage) + Num(r.words.flags))
      + (Str(r.words.user) + Str(r.words.name) + Str(r.queue.name) + Str(r.words.project))
      + (Str(r.words.gpuModel) + Str(r.words.machines) + Str(r.words.tokenpool) + Str(r.words.depend)) + "\n"
    case EvStart(j, time, nhosts, cpus, model, hosts) =>
      "JOB_START 1" + Num(time) + Num(j) + (Num(nhosts) + Num(cpus) + " 0") + Str(model) + " \"\"" + Str(hosts) + "\n"
    case EvFork(j, time, pid) => "JOB_FORK 1" + Num(time) + (Num(j) + Num(pid)) + "\n"
    case EvSignal(j, time, sig) => "JOB_SIGNAL 1" + Num(time) + (Num(j) + Num(sig.number) + Num(sig.uid)) + "\n"
    case EvFinish(j, uid, state, exit, time) =>
      "JOB_FINISH 1" + Num(time) + (Num(j) + Num(uid) + State(state)) + (Num(exit) + Num(time)) + "\n"
    case EvPendSusp(j, time) => "JOB_PEND_SUSP 1" + Num(time) + Num(j) + "\n"
    case EvPendResume(j, time) => "JOB_PEND_RESUME 1" + Num(time) + Num(j) + "\n"
    case EvMove(j, time, from, to) => "JOB_MOVE 1" + Num(time) + Num(j) + Str(from.name) + Str(to.name) + "\n"
    case EvPriority(j, time, before, after) => "JOB_PRIORITY 1" + Num(time) + (Num(j) + Num(before) + Num(after)) + "\n"
    case EvPend(j, time) => "JOB_PEND 1" + Num(time) + Num(j) + "\n"
  }

  // -------------------------------------------------------------------
  // Numbers and strings in a row
  // -------------------------------------------------------------------

  lemma {:induction false} One(a: int)
    ensures F.NumsText([a]) == Num(a)
  {
    assert [a][1..] == [];
  }

  lemma {:induction false} Two(a: int, b: int)
    ensures F.NumsText([a, b]) == Num(a) + Num(b)
  {
    One(a);
    One(b);
    F.NumsSplit([a], [b]);
    assert [a] + [b] == [a, b];
  }

  lemma {:induction false} Three(a: int, b: int, c: int)
    ensures F.NumsText([a, b, c]) == Num(a) + Num(b) + Num(c)
  {
    Two(a, b);
    One(c);
    F.NumsSplit([a, b], [c]);
    assert [a, b] + [c] == [a, b, c];
  }

  lemma {:induction false} OneText(a: string)
    ensures F.TextsText([a]) == Str(a)
  {
    assert [a][1..] == [];
  }

  lemma {:induction false} TextsSplit(a: seq<string>, b: seq<string>)
    ensures F.TextsText(a + b) == F.TextsText(a) + F.TextsText(b)
  {
    if a == [] {
      assert a + b == b;
    } else {
      assert (a + b)[0] == a[0] && (a + b)[1..] == a[1..] + b;
      TextsSplit(a[1..], b);
    }
  }

  lemma {:induction false} TwoTexts(a: string, b: string)
    ensures F.TextsText([a, b]) == Str(a) + Str(b)
  {
    OneText(a);
    OneText(b);
    TextsSplit([a], [b]);
    assert [a] + [b] == [a, b];
  }

  lemma {:induction false} FourTexts(a: string, b: string, c: string, d: string)
    ensures F.TextsText([a, b, c, d]) == Str(a) + Str(b) + Str(c) + Str(d)
  {
    TwoTexts(a, b);
    TwoTexts(c, d);
    TextsSplit([a, b], [c, d]);
    assert [a, b] + [c, d] == [a, b, c, d];
    assert Str(a) + Str(b) + (Str(c) + Str(d)) == Str(a) + Str(b) + Str(c) + Str(d);
  }

  lemma {:induction false} Digits()
    ensures Num(0) == " 0" && Num(1) == " 1" && Num(2) == " 2" && Num(3) == " 3" && Num(5) == " 5" && Num(6) == " 6"
  {
  }

  lemma {:induction false} StateShown(s: JobState)
    ensures Num(StateNumber(s)) == State(s)
  {
    Digits();
  }

  /** A line from its three parts. */
  lemma {:induction false} Joined(r: F.Record, name: string, nums: string, texts: string)
    requires F.NameOf(r.event) == name && F.NumsText(F.Printed(r)) == nums && F.TextsText(r.texts) == texts
    ensures F.Line(r) == name + " 1" + Num(r.time) + nums + texts + "\n"
  {
    Two(F.LOG_VERSION, r.time);
    Digits();
    var time := Num(r.time);
    hide F.NumsText, F.TextsText, Num;
    assert name + (" 1" + time + (nums + (texts + "\n"))) == name + " 1" + time + nums + texts + "\n";
  }

  // -------------------------------------------------------------------
  // The lines
  // -------------------------------------------------------------------

  lemma {:induction false} NewLine(j: JobId, r: NewRec)
    ensures F.Line(NewRecord(j, r)) == LineOf(EvNew(j, r))
  {
    var rec := NewRecord(j, r);
    var n, t, w := rec.nums, rec.texts, r.words;
    NewNums(j, r);
    TextsSplit([w.user, w.name, r.queue.name, w.project], [w.gpuModel, w.machines, w.tokenpool, w.depend]);
    FourTexts(w.user, w.name, r.queue.name, w.project);
    FourTexts(w.gpuModel, w.machines, w.tokenpool, w.depend);
    assert [w.user, w.name, r.queue.name, w.project] + [w.gpuModel, w.machines, w.tokenpool, w.depend] == t;
    var a := Str(w.user) + Str(w.name) + Str(r.queue.name) + Str(w.project);
    var b := Str(w.gpuModel) + Str(w.machines) + Str(w.tokenpool) + Str(w.depend);
    var nums := (Num(j) + Num(r.tag.id) + Num(r.tag.index)) + (Num(r.tag.start) + Num(r.tag.end) + Num(r.tag.stride))
                + (Num(r.uid) + Num(w.gid) + State(r.state)) + (Num(r.priority) + Num(r.beginTime) + Num(r.termTime))
                + (Num(r.cpus) + Num(r.nhosts) + " 0") + (Num(r.mem) + Num(r.storage) + Num(w.flags));
    Joined(rec, "JOB_NEW", nums, a + b);
    hide F.Line, Num, Str, State;
    assert "JOB_NEW" + " 1" == "JOB_NEW 1";
    Regrouped("JOB_NEW 1" + Num(r.submitTime),
              Num(j) + Num(r.tag.id) + Num(r.tag.index), Num(r.tag.start) + Num(r.tag.end) + Num(r.tag.stride),
              Num(r.uid) + Num(w.gid) + State(r.state), Num(r.priority) + Num(r.beginTime) + Num(r.termTime),
              Num(r.cpus) + Num(r.nhosts) + " 0", Num(r.mem) + Num(r.storage) + Num(w.flags), a, b);
  }

  lemma {:induction false} Regrouped(h: string, a: string, b: string, c: string, d: string, e: string, f: string, s: string, t: string)
    ensures h + (a + b + c + d + e + f) + (s + t) + "\n" == h + a + b + c + d + e + f + s + t + "\n"
  {
  }

  lemma {:induction false} NewNums(j: JobId, r: NewRec)
    ensures F.NumsText(NewRecord(j, r).nums)
            == (Num(j) + Num(r.tag.id) + Num(r.tag.index)) + (Num(r.tag.start) + Num(r.tag.end) + Num(r.tag.stride))
               + (Num(r.uid) + Num(r.words.gid) + State(r.state)) + (Num(r.priority) + Num(r.beginTime) + Num(r.termTime))
               + (Num(r.cpus) + Num(r.nhosts) + " 0") + (Num(r.mem) + Num(r.storage) + Num(r.words.flags))
  {
    hide Num, State, F.NumsText, StateNumber;
    var w := r.words;
    var a, b, c := [j, r.tag.id, r.tag.index], [r.tag.start, r.tag.end, r.tag.stride], [r.uid, w.gid, StateNumber(r.state)];
    var d, e, f := [r.priority, r.beginTime, r.termTime], [r.cpus, r.nhosts, 0], [r.mem, r.storage, w.flags];
    Three(a[0], a[1], a[2]);
    Three(b[0], b[1], b[2]);
    Three(c[0], c[1], c[2]);
    Three(d[0], d[1], d[2]);
    Three(e[0], e[1], e[2]);
    Three(f[0], f[1], f[2]);
    StateShown(r.state);
    Digits();
    SixRows(j, r);
    SixSplit(a, b, c, d, e, f);
  }

  lemma {:induction false} SixRows(j: JobId, r: NewRec)
    ensures NewRecord(j, r).nums
            == [j, r.tag.id, r.tag.index] + [r.tag.start, r.tag.end, r.tag.stride] + [r.uid, r.words.gid, StateNumber(r.state)]
               + [r.priority, r.beginTime, r.termTime] + [r.cpus, r.nhosts, 0] + [r.mem, r.storage, r.words.flags]
  {
  }

  lemma {:induction false} SixSplit(a: seq<int>, b: seq<int>, c: seq<int>, d: seq<int>, e: seq<int>, f: seq<int>)
    ensures F.NumsText(a + b + c + d + e + f)
            == F.NumsText(a) + F.NumsText(b) + F.NumsText(c) + F.NumsText(d) + F.NumsText(e) + F.NumsText(f)
  {
    hide F.NumsText;
    F.NumsSplit(a, b);
    F.NumsSplit(a + b, c);
    F.NumsSplit(a + b + c, d);
    F.NumsSplit(a + b + c + d, e);
    F.NumsSplit(a + b + c + d + e, f);
  }

  lemma {:induction false} StartLine(j: JobId, time: int, nhosts: int, cpus: int, model: string, hosts: string)
    ensures F.Line(Encoded(EvStart(j, time, nhosts, cpus, model, hosts))) == LineOf(EvStart(j, time, nhosts, cpus, model, hosts))
  {
    var r := Encoded(EvStart(j, time, nhosts, cpus, model, hosts));
    StartNums(j, nhosts, cpus);
    StartTexts(model, hosts);
    Joined(r, "JOB_START", Num(j) + (Num(nhosts) + Num(cpus) + " 0"), Str(model) + (" \"\"" + Str(hosts)));
    hide F.Line, Num, Str, F.NumsText, F.TextsText;
    assert "JOB_START" + " 1" == "JOB_START 1";
    StartRegrouped("JOB_START 1" + Num(time), Num(j), Num(nhosts) + Num(cpus) + " 0", Str(model), " \"\"", Str(hosts));
  }

  lemma {:induction false} StartRegrouped(h: string, a: string, b: string, c: string, d: string, e: string)
    ensures h + (a + b) + (c + (d + e)) + "\n" == h + a + b + c + d + e + "\n"
  {
  }

  lemma {:induction false} StartNums(j: JobId, nhosts: int, cpus: int)
    ensures F.NumsText([j, nhosts, cpus, 0]) == Num(j) + (Num(nhosts) + Num(cpus) + " 0")
  {
    One(j);
    Three(nhosts, cpus, 0);
    Digits();
    F.NumsSplit([j], [nhosts, cpus, 0]);
    assert [j] + [nhosts, cpus, 0] == [j, nhosts, cpus, 0];
  }

  lemma {:induction false} StartTexts(model: string, hosts: string)
    ensures F.TextsText([model, "", hosts]) == Str(model) + (" \"\"" + Str(hosts))
  {
    OneText(model);
    TwoTexts("", hosts);
    TextsSplit([model], ["", hosts]);
    assert [model] + ["", hosts] == [model, "", hosts];
    assert Str("") == " \"\"";
  }

  lemma {:induction false} FinishLine(j: JobId, uid: nat, state: JobState, exit: int, time: int)
    ensures F.Line(Encoded(EvFinish(j, uid, state, exit, time))) == LineOf(EvFinish(j, uid, state, exit, time))
  {
    var r := Encoded(EvFinish(j, uid, state, exit, time));
    FinishNums(j, uid, state, exit, time);
    assert F.Printed(r) == [j, uid, StateNumber(state), exit, time];
    hide F.NumsText, Num, State, StateNumber;
    Joined(r, "JOB_FINISH", Num(j) + Num(uid) + State(state) + (Num(exit) + Num(time)), "");
    hide F.Line;
    assert "JOB_FINISH" + " 1" == "JOB_FINISH 1";
    FinishRegrouped("JOB_FINISH 1" + Num(time), Num(j) + Num(uid) + State(state), Num(exit) + Num(time));
  }

  lemma {:induction false} FinishRegrouped(h: string, a: string, b: string)
    ensures h + (a + b) + "" + "\n" == h + a + b + "\n"
  {
  }

  lemma {:induction false} FinishNums(j: JobId, uid: nat, state: JobState, exit: int, time: int)
    ensures F.NumsText([j, uid, StateNumber(state), exit, time]) == Num(j) + Num(uid) + State(state) + (Num(exit) + Num(time))
  {
    Three(j, uid, StateNumber(state));
    Two(exit, time);
    StateShown(state);
    hide F.NumsText, Num, State, StateNumber;
    F.NumsSplit([j, uid, StateNumber(state)], [exit, time]);
    assert [j, uid, StateNumber(state)] + [exit, time] == [j, uid, StateNumber(state), exit, time];
  }

  lemma {:induction false} MoveLine(j: JobId, time: int, from: QueueId, to: QueueId)
    ensures F.Line(Encoded(EvMove(j, time, from, to))) == LineOf(EvMove(j, time, from, to))
  {
    One(j);
    TwoTexts(from.name, to.name);
    Joined(Encoded(EvMove(j, time, from, to)), "JOB_MOVE", Num(j), Str(from.name) + Str(to.name));
    hide F.Line, Num, Str;
    assert "JOB_MOVE" + " 1" == "JOB_MOVE 1";
    MoveRegrouped("JOB_MOVE 1" + Num(time) + Num(j), Str(from.name), Str(to.name));
  }

  lemma {:induction false} MoveRegrouped(h: string, a: string, b: string)
    ensures h + (a + b) + "\n" == h + a + b + "\n"
  {
  }

  /** A line of numbers only. */
  lemma {:induction false} NumberLine(r: F.Record, name: string, nums: string)
    requires F.NameOf(r.event) == name && F.NumsText(F.Printed(r)) == nums && r.texts == []
    ensures F.Line(r) == name + " 1" + Num(r.time) + nums + "\n"
  {
    Joined(r, name, nums, "");
    hide F.Line, Num;
    var h := name + " 1" + Num(r.time) + nums;
    assert h + "" == h;
  }

  lemma {:induction false} PlainLine(e: Event)
    requires e.EvFork? || e.EvSignal? || e.EvPendSusp? || e.EvPendResume? || e.EvPriority? || e.EvPend?
    ensures F.Line(Encoded(e)) == LineOf(e)
  {
    var r := Encoded(e);
    var name := F.NameOf(r.event);
    One(e.job);
    if e.EvFork? { Two(e.job, e.pid); }
    if e.EvSignal? { Three(e.job, e.sig.number, e.sig.uid); }
    if e.EvPriority? { Three(e.job, e.before, e.after); }
    NumberLine(r, name, F.NumsText(r.nums));
    hide F.Line, Num;
    assert "JOB_FORK" + " 1" == "JOB_FORK 1" && "JOB_SIGNAL" + " 1" == "JOB_SIGNAL 1" && "JOB_PRIORITY" + " 1" == "JOB_PRIORITY 1";
    assert "JOB_PEND_SUSP" + " 1" == "JOB_PEND_SUSP 1" && "JOB_PEND_RESUME" + " 1" == "JOB_PEND_RESUME 1";
    assert "JOB_PEND" + " 1" == "JOB_PEND 1";
  }

  /** Every event is written as its line, whatever its fields hold. */
  lemma {:induction false} WrittenAs(e: Event)
    ensures F.Line(Encoded(e)) == LineOf(e)
  {
    match e
    case EvNew(j, rec) => NewLine(j, rec);
    case EvStart(j, time, nhosts, cpus, model, hosts) => StartLine(j, time, nhosts, cpus, model, hosts);
    case EvFinish(j, uid, state, exit, time) => FinishLine(j, uid, state, exit, time);
    case EvMove(j, time, from, to) => MoveLine(j, time, from, to);
    case _ => PlainLine(e);
  }
}
