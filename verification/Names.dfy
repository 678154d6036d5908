/**
 Names: hosts, queues and token pools are known by them, and the event log
 writes them as text.
 */
module Names {
  type JobId = nat

  datatype HostId = HostId(name: string)

  datatype QueueId = QueueId(name: string)

  datatype PoolId = PoolId(name: string)

  const LL_BUFSIZ_4K := 4096

  /** ll_strlcpy into a buffer of the given size */
  function Cut(s: string, size: nat): string
    requires size > 0
  {
    if |s| < size then s else s[..size - 1]
  }

  /** The host names of JOB_START, a blank between two. */
  function Join(hs: seq<HostId>): string {
    if hs == [] then ""
    else
      var n := |hs| - 1;
      Join(hs[..n]) + (if n > 0 then " " else "") + hs[n].name
  }

  predicate IsSeparator(c: char) {
    c == ' ' || c == '\t' || c == ','
  }

  function WordLength(s: string): (n: nat)
    ensures n <= |s|
  {
    if s == "" || IsSeparator(s[0]) then 0 else 1 + WordLength(s[1..])
  }

  /** strtok(s, " \t,") to the end */
  function Words(s: string): seq<string> {
    if s == "" then []
    else if IsSeparator(s[0]) then Words(s[1..])
    else [s[..WordLength(s)]] + Words(s[WordLength(s)..])
  }

  function HostsNamed(ws: seq<string>): seq<HostId> {
    seq(|ws|, i requires 0 <= i < |ws| => HostId(ws[i]))
  }

  /** The host field of JOB_START. */
  function HostsText(hs: seq<HostId>): string {
    Cut(Join(hs), LL_BUFSIZ_4K)
  }

  /** What is left of a list of hosts that has been through JOB_START. */
  function LoggedHosts(hs: seq<HostId>): seq<HostId> {
    HostsNamed(Words(HostsText(hs)))
  }

  predicate PlainName(s: string) {
    s != "" && forall i :: 0 <= i < |s| ==> !IsSeparator(s[i])
  }

  predicate PlainHosts(hs: seq<HostId>) {
    forall i :: 0 <= i < |hs| ==> PlainName(hs[i].name)
  }

  // -------------------------------------------------------------------
  // Lists come back
  // -------------------------------------------------------------------

  lemma {:induction false} WordAlone(w: string, rest: string)
    requires PlainName(w) && (rest == "" || IsSeparator(rest[0]))
    ensures WordLength(w + rest) == |w|
  {
    if |w| == 1 {
      assert (w + rest)[1..] == rest;
    } else {
      assert (w + rest)[0] == w[0] && (w + rest)[1..] == w[1..] + rest;
      WordAlone(w[1..], rest);
    }
  }

  lemma {:induction false} FirstWord(w: string, rest: string)
    requires PlainName(w) && (rest == "" || IsSeparator(rest[0]))
    ensures Words(w + rest) == [w] + Words(rest)
  {
    WordAlone(w, rest);
    var s := w + rest;
    assert s[..|w|] == w && s[|w|..] == rest;
  }

  /** The list from its front. */
  function JoinFront(hs: seq<HostId>): string {
    if hs == [] then "" else if |hs| == 1 then hs[0].name else hs[0].name + " " + JoinFront(hs[1..])
  }

  lemma {:induction false} JoinFrontLast(hs: seq<HostId>, h: HostId)
    ensures JoinFront(hs + [h]) == JoinFront(hs) + (if hs == [] then "" else " ") + h.name
  {
    if |hs| == 1 {
      assert (hs + [h])[1..] == [h];
    } else if |hs| > 1 {
      assert (hs + [h])[0] == hs[0] && (hs + [h])[1..] == hs[1..] + [h];
      JoinFrontLast(hs[1..], h);
    }
  }

  lemma {:induction false} SameJoin(hs: seq<HostId>)
    ensures Join(hs) == JoinFront(hs)
  {
    if hs != [] {
      var n := |hs| - 1;
      SameJoin(hs[..n]);
      JoinFrontLast(hs[..n], hs[n]);
      assert hs == hs[..n] + [hs[n]];
    }
  }

  function NamesOf(hs: seq<HostId>): seq<string> {
    seq(|hs|, i requires 0 <= i < |hs| => hs[i].name)
  }

  lemma {:induction false} JoinedWords(hs: seq<HostId>)
    requires PlainHosts(hs)
    ensures Words(JoinFront(hs)) == NamesOf(hs)
  {
    if |hs| == 1 {
      FirstWord(hs[0].name, "");
      assert hs[0].name + "" == hs[0].name;
    } else if |hs| > 1 {
      var tail := " " + JoinFront(hs[1..]);
      FirstWord(hs[0].name, tail);
      assert JoinFront(hs) == hs[0].name + tail;
      assert tail[1..] == JoinFront(hs[1..]);
      JoinedWords(hs[1..]);
      assert NamesOf(hs) == [hs[0].name] + NamesOf(hs[1..]);
    }
  }

  /** The words of a text and the blanks between them do not outgrow it. */
  function WordsLength(ws: seq<string>): nat {
    if ws == [] then 0 else |ws[0]| + (if |ws| > 1 then 1 else 0) + WordsLength(ws[1..])
  }

  lemma {:induction false} WordsFit(s: string)
    ensures WordsLength(Words(s)) <= |s|
  {
    if s != "" {
      if IsSeparator(s[0]) {
        WordsFit(s[1..]);
      } else {
        var n := WordLength(s);
        var rest := s[n..];
        WordsFit(rest);
        WordStops(s);
        assert Words(s)[1..] == Words(rest);
        if Words(rest) != [] {
          assert rest != "" && IsSeparator(rest[0]);
          WordsFit(rest[1..]);
        }
      }
    }
  }

  lemma {:induction false} WordStops(s: string)
    ensures s[WordLength(s)..] == "" || IsSeparator(s[WordLength(s)..][0])
  {
    if s != "" && !IsSeparator(s[0]) {
      WordStops(s[1..]);
      assert s[1..][WordLength(s[1..])..] == s[WordLength(s)..];
    }
  }

  lemma {:induction false} JoinLength(hs: seq<HostId>)
    ensures WordsLength(NamesOf(hs)) == |JoinFront(hs)|
  {
    if hs != [] {
      assert NamesOf(hs)[1..] == NamesOf(hs[1..]);
      JoinLength(hs[1..]);
    }
  }

  /** A host list survives JOB_START exactly if its text fits the 4K field. */
  lemma {:induction false} HostsLoggedExactly(hs: seq<HostId>)
    requires PlainHosts(hs)
    ensures LoggedHosts(hs) == hs <==> |Join(hs)| < LL_BUFSIZ_4K
  {
    SameJoin(hs);
    var text := Cut(Join(hs), LL_BUFSIZ_4K);
    if |Join(hs)| < LL_BUFSIZ_4K {
      JoinedWords(hs);
      assert HostsNamed(NamesOf(hs)) == hs;
    } else {
      WordsFit(text);
      JoinLength(hs);
      assert NamesOf(LoggedHosts(hs)) == Words(text);
    }
  }

  lemma {:induction false} WordsPrefix(ws: seq<string>, n: nat)
    requires n <= |ws|
    ensures WordsLength(ws[..n]) <= WordsLength(ws)
  {
    if n > 0 {
      WordsPrefix(ws[1..], n - 1);
      assert ws[..n][1..] == ws[1..][..n - 1];
    }
  }

  /** A list that does not fit does not begin what comes back, either. */
  lemma {:induction false} NotEvenAPrefix(hs: seq<HostId>, n: nat)
    requires PlainHosts(hs) && |Join(hs)| >= LL_BUFSIZ_4K && n <= |LoggedHosts(hs)|
    ensures LoggedHosts(hs)[..n] != hs
  {
    var text := Cut(Join(hs), LL_BUFSIZ_4K);
    SameJoin(hs);
    WordsFit(text);
    JoinLength(hs);
    WordsPrefix(Words(text), n);
    assert NamesOf(LoggedHosts(hs)[..n]) == Words(text)[..n];
  }

  // -------------------------------------------------------------------
  // A list the planner passes and the log loses
  // -------------------------------------------------------------------

  const LL_BUFSIZ_8K := 8192

  /** What build_host_plan compares with 8K: 16 characters to spare for each. */
  function PlanLength(hs: seq<HostId>): nat {
    if hs == [] then 0 else PlanLength(hs[..|hs| - 1]) + |hs[|hs| - 1].name| + 16
  }

  /** Names of 63 characters, the longest a host has. */
  function LongName(k: nat): string {
    seq(63, i => if i == k % 63 then (if k < 63 then 'b' else 'c') else 'a')
  }

  function LongHosts(n: nat): seq<HostId> {
    seq(n, k requires 0 <= k < n => HostId(LongName(k)))
  }

  lemma {:induction false} LongLengths(n: nat)
    ensures PlanLength(LongHosts(n)) == 79 * n && |Join(LongHosts(n))| == if n == 0 then 0 else 64 * n - 1
  {
    if n > 0 {
      LongLengths(n - 1);
      assert LongHosts(n)[..n - 1] == LongHosts(n - 1);
    }
  }

  lemma {:induction false} AllLong(hs: seq<HostId>)
    requires forall i :: 0 <= i < |hs| ==> |hs[i].name| == 63
    ensures PlanLength(hs) == 79 * |hs|
  {
    if hs != [] { AllLong(hs[..|hs| - 1]); }
  }

  lemma {:induction false} LongNamesDiffer(i: nat, k: nat)
    requires i < k < 126
    ensures LongName(i) != LongName(k)
  {
    assert LongName(k)[k % 63] == if k < 63 then 'b' else 'c';
    assert LongName(i)[k % 63] == if i % 63 == k % 63 then (if i < 63 then 'b' else 'c') else 'a';
  }

  /** From 65 hosts with the longest names on, up to the 103 the planner
      passes, JOB_START does not carry the list. */
  lemma {:induction false} PlannedNotLogged(n: nat)
    requires 65 <= n <= 103
    ensures PlanLength(LongHosts(n)) < LL_BUFSIZ_8K && LoggedHosts(LongHosts(n)) != LongHosts(n)
    ensures PlainHosts(LongHosts(n)) && forall i, k :: 0 <= i < k < n ==> LongHosts(n)[i] != LongHosts(n)[k]
  {
    LongLengths(n);
    HostsLoggedExactly(LongHosts(n));
    forall i, k | 0 <= i < k < n
      ensures LongHosts(n)[i] != LongHosts(n)[k]
    {
      LongNamesDiffer(i, k);
    }
  }
}
