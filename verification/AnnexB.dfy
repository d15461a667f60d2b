/** The H.264 byte-stream scanner shared (as two hand-written copies) by the
    FFmpeg and Android backends: start codes, splitting and joining. */
module AnnexB {
  import opened Core

  type Bytes = seq<Byte>

  const START_CODE: Bytes := [0, 0, 0, 1]
  const SHORT_CODE: Bytes := [0, 0, 1]

  /** Length of the start code at the front of `s`: 4, 3, or 0 if there is none. */
  function CodeLength(s: Bytes): (n: nat)
    ensures n <= |s|
    ensures n == 0 || n == 3 || n == 4
  {
    if |s| >= 4 && s[0] == 0 && s[1] == 0 && s[2] == 0 && s[3] == 1 then 4
    else if |s| >= 3 && s[0] == 0 && s[1] == 0 && s[2] == 1 then 3
    else 0
  }

  /** How many bytes of `s` come before its first start code. */
  function Lead(s: Bytes): (n: nat)
    ensures n <= |s|
    ensures n < |s| ==> CodeLength(s[n..]) != 0
  {
    if s == [] || CodeLength(s) != 0 then 0 else 1 + Lead(s[1..])
  }

  /** What follows the first start code of `s`. */
  function AfterCode(s: Bytes): (rest: Bytes)
    requires Lead(s) < |s|
    ensures |rest| < |s|
  {
    s[Lead(s) + CodeLength(s[Lead(s)..])..]
  }

  function NonEmpty(u: Bytes): seq<Bytes> {
    if u == [] then [] else [u]
  }

  /** The non-empty units between start codes, in order. */
  function Split(s: Bytes): seq<Bytes>
    decreases |s|
  {
    if Lead(s) == |s| then []
    else
      var rest := AfterCode(s);
      NonEmpty(rest[..Lead(rest)]) + Split(rest[Lead(rest)..])
  }

  /** A start-code prefix 00 00 01 begins at index `i` of `u`. */
  predicate PrefixAt(u: Bytes, i: nat) {
    i + 3 <= |u| && u[i] == 0 && u[i + 1] == 0 && u[i + 2] == 1
  }

  /** No start-code prefix 00 00 01 lies inside `u`. */
  predicate CodeFree(u: Bytes) {
    forall i :: 0 <= i < |u| ==> !PrefixAt(u, i)
  }

  predicate Units(us: seq<Bytes>) {
    forall i :: 0 <= i < |us| ==> us[i] != [] && CodeFree(us[i])
  }

  /** Each unit behind a 4-byte start code. */
  function Join(us: seq<Bytes>): Bytes {
    if us == [] then [] else START_CODE + us[0] + Join(us[1..])
  }

  // ----- The grammar of a byte stream -----

  /** A start code, long or short, and the bytes up to the next one. */
  datatype Frame = Frame(long: bool, body: Bytes)

  function FrameBytes(f: Frame): Bytes {
    (if f.long then START_CODE else SHORT_CODE) + f.body
  }

  function StreamBytes(fs: seq<Frame>): Bytes {
    if fs == [] then [] else FrameBytes(fs[0]) + StreamBytes(fs[1..])
  }

  /** `fs` may follow `before`: everything is free of start codes, and a zero
      byte before 00 00 01 belongs to the start code. */
  ghost predicate Follows(before: Bytes, fs: seq<Frame>)
    decreases |fs|
  {
    && CodeFree(before)
    && (fs != [] ==>
          && (before == [] || before[|before| - 1] != 0 || fs[0].long)
          && Follows(fs[0].body, fs[1..]))
  }

  function Bodies(fs: seq<Frame>): seq<Bytes> {
    if fs == [] then [] else NonEmpty(fs[0].body) + Bodies(fs[1..])
  }

  /** Scanning `u + t` from the left stops at `t`. */
  ghost predicate StopsAt(u: Bytes, t: Bytes) {
    && CodeFree(u)
    && (t == [] || CodeLength(t) == 4 ||
        (CodeLength(t) == 3 && (u == [] || u[|u| - 1] != 0)))
  }

  lemma StopsAtTail(u: Bytes, t: Bytes)
    requires StopsAt(u, t) && u != []
    ensures StopsAt(u[1..], t)
  {
    forall i | 0 <= i < |u[1..]| ensures !PrefixAt(u[1..], i) {
      assert !PrefixAt(u, i + 1);
    }
  }

  /** No start code begins inside a body of the grammar. */
  lemma NoCodeAtFront(u: Bytes, t: Bytes)
    requires StopsAt(u, t) && u != []
    ensures CodeLength(u + t) == 0
  {
    assert !PrefixAt(u, 0);
    if |u| >= 2 {
      assert !PrefixAt(u, 1);
    }
  }

  lemma {:induction false} LeadIsBody(u: Bytes, t: Bytes)
    requires StopsAt(u, t)
    ensures Lead(u + t) == |u|
    decreases |u|
  {
    if u == [] {
      assert u + t == t;
    } else {
      StopsAtTail(u, t);
      LeadIsBody(u[1..], t);
      assert (u + t)[1..] == u[1..] + t;
      NoCodeAtFront(u, t);
    }
  }

  lemma ConsStream(f: Frame, fs: seq<Frame>)
    ensures StreamBytes([f] + fs) == FrameBytes(f) + StreamBytes(fs)
    ensures Bodies([f] + fs) == NonEmpty(f.body) + Bodies(fs)
  {
    assert ([f] + fs)[1..] == fs;
  }

  lemma FollowsStops(before: Bytes, fs: seq<Frame>)
    requires Follows(before, fs)
    ensures StopsAt(before, StreamBytes(fs))
  {
    if fs != [] {
      CodeOfFrame(fs);
    }
  }

  lemma CodeOfFrame(fs: seq<Frame>)
    requires fs != []
    ensures CodeLength(StreamBytes(fs)) == if fs[0].long then 4 else 3
    ensures StreamBytes(fs)[CodeLength(StreamBytes(fs))..] == fs[0].body + StreamBytes(fs[1..])
  {
    var f := fs[0];
    var rest := f.body + StreamBytes(fs[1..]);
    var code := if f.long then START_CODE else SHORT_CODE;
    assert StreamBytes(fs) == code + rest;
  }

  lemma AfterCodeOfFrame(before: Bytes, fs: seq<Frame>)
    requires Follows(before, fs) && fs != []
    ensures Lead(before + StreamBytes(fs)) == |before| < |before + StreamBytes(fs)|
    ensures AfterCode(before + StreamBytes(fs)) == fs[0].body + StreamBytes(fs[1..])
  {
    var t := StreamBytes(fs);
    FollowsStops(before, fs);
    LeadIsBody(before, t);
    CodeOfFrame(fs);
    Parts(before, t, []);
    assert before + t + [] == before + t;
    DropTwice(before + t, |before|, CodeLength(t));
  }

  /** `Split` reads any stream of the grammar back: what precedes the first start
      code is skipped and the non-empty bodies come out in order. */
  lemma {:induction false} SplitReadsGrammar(before: Bytes, fs: seq<Frame>)
    requires Follows(before, fs)
    ensures Split(before + StreamBytes(fs)) == Bodies(fs)
    decreases |fs|
  {
    if fs == [] {
      FollowsStops(before, fs);
      LeadIsBody(before, StreamBytes(fs));
    } else {
      var body, tail := fs[0].body, fs[1..];
      AfterCodeOfFrame(before, fs);
      FollowsStops(body, tail);
      LeadIsBody(body, StreamBytes(tail));
      var rest := body + StreamBytes(tail);
      assert rest[..|body|] == body;
      assert rest[|body|..] == [] + StreamBytes(tail);
      SplitReadsGrammar([], tail);
    }
  }

  lemma {:induction false} LeadClear(s: Bytes, k: nat)
    requires k < Lead(s)
    ensures CodeLength(s[k..]) == 0
  {
    if k != 0 {
      LeadClear(s[1..], k - 1);
      assert s[1..][k - 1..] == s[k..];
    } else {
      assert s[0..] == s;
    }
  }

  lemma LeadCodeFree(s: Bytes)
    ensures CodeFree(s[..Lead(s)])
  {
    var u := s[..Lead(s)];
    forall i | 0 <= i < |u| ensures !PrefixAt(u, i) {
      LeadClear(s, i);
      var t := s[i..];
      assert i + 3 <= |u| ==> t[0] == u[i] && t[1] == u[i + 1] && t[2] == u[i + 2];
    }
  }

  /** Every byte string is a stream of the grammar, so with `SplitReadsGrammar`
      every input byte is before the first code, in a code, or in one unit. */
  lemma {:induction false} EveryInputParses(s: Bytes) returns (before: Bytes, fs: seq<Frame>)
    ensures s == before + StreamBytes(fs) && Follows(before, fs)
    decreases |s|
  {
    before := s[..Lead(s)];
    LeadCodeFree(s);
    if Lead(s) == |s| {
      fs := [];
    } else {
      var code := CodeLength(s[Lead(s)..]);
      var body, tail := EveryInputParses(AfterCode(s));
      var f := Frame(code == 4, body);
      fs := [f] + tail;
      CutAtCode(s, Lead(s), code);
      ConsStream(f, tail);
      Associate(if f.long then START_CODE else SHORT_CODE, body, StreamBytes(tail));
      assert fs[1..] == tail;
      if 0 < Lead(s) && code == 3 {
        ZeroBelongsToCode(s);
      }
    }
  }

  lemma CutAtCode(s: Bytes, n: nat, c: nat)
    requires n <= |s| && c == CodeLength(s[n..]) && c != 0
    ensures s == s[..n] + ((if c == 4 then START_CODE else SHORT_CODE) + s[n + c..])
  {
    var code := if c == 4 then START_CODE else SHORT_CODE;
    var t := s[n..];
    assert t[..c] == code;
    assert t[c..] == s[n + c..];
    Halves(t, c);
    Halves(s, n);
  }

  lemma Halves(s: Bytes, n: nat)
    requires n <= |s|
    ensures s == s[..n] + s[n..]
  {
  }

  lemma ZeroBelongsToCode(s: Bytes)
    requires 0 < Lead(s) < |s| && CodeLength(s[Lead(s)..]) == 3
    ensures s[Lead(s) - 1] != 0
  {
    var n := Lead(s);
    LeadClear(s, n - 1);
    var t, u := s[n..], s[n - 1..];
    assert u[0] == s[n - 1] && u[1] == t[0] && u[2] == t[1] && u[3] == t[2];
  }

  /** `Split` defined by the grammar instead of by scanning. */
  lemma SplitIsTheParse(s: Bytes, us: seq<Bytes>)
    ensures Split(s) == us <==>
            exists before, fs :: s == before + StreamBytes(fs) && Follows(before, fs) && Bodies(fs) == us
  {
    var before, fs := EveryInputParses(s);
    SplitReadsGrammar(before, fs);
    forall b, gs | s == b + StreamBytes(gs) && Follows(b, gs) ensures Bodies(gs) == Split(s) {
      SplitReadsGrammar(b, gs);
    }
  }

  // ----- Round trips -----

  /** Every emitted unit is non-empty and free of 00 00 01. */
  lemma {:induction false} SplitYieldsUnits(s: Bytes)
    ensures Units(Split(s))
    decreases |s|
  {
    if Lead(s) != |s| {
      var rest := AfterCode(s);
      LeadCodeFree(rest);
      SplitYieldsUnits(rest[Lead(rest)..]);
      UnitsConcat(NonEmpty(rest[..Lead(rest)]), Split(rest[Lead(rest)..]));
    }
  }

  lemma UnitsConcat(a: seq<Bytes>, b: seq<Bytes>)
    requires Units(a) && Units(b)
    ensures Units(a + b)
  {
  }

  function LongFrames(us: seq<Bytes>): seq<Frame> {
    if us == [] then [] else [Frame(true, us[0])] + LongFrames(us[1..])
  }

  lemma {:induction false} JoinIsStream(before: Bytes, us: seq<Bytes>)
    requires Units(us) && CodeFree(before)
    ensures Join(us) == StreamBytes(LongFrames(us))
    ensures Follows(before, LongFrames(us))
    ensures Bodies(LongFrames(us)) == us
    decreases |us|
  {
    if us != [] {
      assert us == [us[0]] + us[1..];
      assert LongFrames(us)[1..] == LongFrames(us[1..]);
      JoinIsStream(us[0], us[1..]);
    }
  }

  /** Splitting undoes joining exactly for lists of units: non-empty and free of
      00 00 01. */
  lemma SplitUndoesJoin(us: seq<Bytes>)
    ensures Split(Join(us)) == us <==> Units(us)
  {
    SplitYieldsUnits(Join(us));
    if Units(us) {
      JoinIsStream([], us);
      SplitOfFrames(LongFrames(us));
    }
  }

  /** Splitting, joining and splitting again changes nothing. */
  lemma SplitIsStable(s: Bytes)
    ensures Split(Join(Split(s))) == Split(s)
  {
    SplitYieldsUnits(s);
    SplitUndoesJoin(Split(s));
  }

  /** Units behind long start codes come out whole, ahead of whatever follows. */
  lemma SplitPrepended(us: seq<Bytes>, rest: Bytes)
    requires Units(us)
    ensures Split(Join(us) + (START_CODE + rest)) == us + Split(START_CODE + rest)
  {
    var body, tail := EveryInputParses(rest);
    var f := Frame(true, body);
    ConsStream(f, tail);
    Associate(START_CODE, body, StreamBytes(tail));
    StartsClean([f] + tail);
    SplitOfFrames([f] + tail);
    FramesConcat([], us, [f] + tail);
    SplitOfFrames(LongFrames(us) + ([f] + tail));
  }

  lemma SplitOfFrames(fs: seq<Frame>)
    requires Follows([], fs)
    ensures Split(StreamBytes(fs)) == Bodies(fs)
  {
    SplitReadsGrammar([], fs);
    assert [] + StreamBytes(fs) == StreamBytes(fs);
  }

  lemma StartsClean(fs: seq<Frame>)
    requires fs != [] && Follows(fs[0].body, fs[1..])
    ensures Follows([], fs)
  {
  }

  lemma {:induction false} FramesConcat(before: Bytes, us: seq<Bytes>, fs: seq<Frame>)
    requires CodeFree(before) && Units(us) && fs != [] && fs[0].long && Follows([], fs)
    ensures StreamBytes(LongFrames(us) + fs) == Join(us) + StreamBytes(fs)
    ensures Follows(before, LongFrames(us) + fs)
    ensures Bodies(LongFrames(us) + fs) == us + Bodies(fs)
    decreases |us|
  {
    if us == [] {
      assert LongFrames(us) + fs == fs;
      assert Join(us) + StreamBytes(fs) == StreamBytes(fs);
      assert us + Bodies(fs) == Bodies(fs);
    } else {
      FramesConcat(us[0], us[1..], fs);
      FrameAhead(before, us, LongFrames(us[1..]) + fs, Join(us[1..]), StreamBytes(fs), Bodies(fs));
      assert LongFrames(us) + fs == [Frame(true, us[0])] + (LongFrames(us[1..]) + fs);
    }
  }

  lemma FrameAhead(before: Bytes, us: seq<Bytes>, tail: seq<Frame>, joined: Bytes, rest: Bytes, bodies: seq<Bytes>)
    requires CodeFree(before) && us != [] && us[0] != [] && Follows(us[0], tail)
    requires StreamBytes(tail) == joined + rest && Bodies(tail) == us[1..] + bodies
    ensures StreamBytes([Frame(true, us[0])] + tail) == START_CODE + us[0] + joined + rest
    ensures Follows(before, [Frame(true, us[0])] + tail)
    ensures Bodies([Frame(true, us[0])] + tail) == us + bodies
  {
    var f := Frame(true, us[0]);
    ConsStream(f, tail);
    ConsFollows(before, f, tail);
    Associate([us[0]], us[1..], bodies);
    assert [us[0]] + us[1..] == us;
    Associate(START_CODE + us[0], joined, rest);
  }

  lemma ConsFollows(before: Bytes, f: Frame, fs: seq<Frame>)
    requires CodeFree(before) && f.long && Follows(f.body, fs)
    ensures Follows(before, [f] + fs)
  {
    assert ([f] + fs)[1..] == fs;
  }

  // ----- The scanning loops -----

  lemma SplitSkips(s: Bytes)
    requires s != [] && CodeLength(s) == 0
    ensures Split(s) == Split(s[1..])
  {
    if Lead(s[1..]) < |s[1..]| {
      AfterCodeSkips(s);
    }
  }

  lemma AfterCodeSkips(s: Bytes)
    requires s != [] && CodeLength(s) == 0 && Lead(s[1..]) < |s[1..]|
    ensures Lead(s) == 1 + Lead(s[1..]) < |s| && AfterCode(s) == AfterCode(s[1..])
  {
    var n := Lead(s[1..]);
    DropTwice(s, 1, n);
    DropTwice(s, 1, n + CodeLength(s[1..][n..]));
  }

  lemma SplitStep(data: Bytes, p: nat, nal: nat, end: nat)
    requires p < nal <= end <= |data| && CodeLength(data[p..]) != 0
    requires nal == p + CodeLength(data[p..]) && end == nal + Lead(data[nal..])
    ensures Split(data[p..]) == NonEmpty(data[nal..end]) + Split(data[end..])
  {
    DropTwice(data, p, nal - p);
    SplitAtCode(data[p..], data[nal..]);
    SliceOfTail(data, nal, end);
  }

  lemma SplitAtCode(s: Bytes, rest: Bytes)
    requires CodeLength(s) != 0 && rest == s[CodeLength(s)..]
    ensures Split(s) == NonEmpty(rest[..Lead(rest)]) + Split(rest[Lead(rest)..])
  {
    assert Lead(s) == 0 && s[0..] == s;
  }

  /** Where the inner loop of every scanner stops: at the next start code. */
  method SkipToCode(data: Bytes, from: nat) returns (p: nat)
    requires from <= |data|
    ensures p == from + Lead(data[from..]) <= |data|
  {
    p := from;
    while p < |data| && CodeLength(data[p..]) == 0
      invariant from <= p <= |data|
      invariant from + Lead(data[from..]) == p + Lead(data[p..])
    {
      assert data[p..][1..] == data[p + 1..];
      p := p + 1;
    }
  }

  /** `units` are the units of what has been scanned, `rest` is still to come. */
  ghost predicate Scanned(data: Bytes, units: seq<Bytes>, rest: Bytes) {
    Split(data) == units + Split(rest)
  }

  lemma ScanSkips(data: Bytes, units: seq<Bytes>, p: nat)
    requires p < |data| && Scanned(data, units, data[p..]) && CodeLength(data[p..]) == 0
    ensures Scanned(data, units, data[p + 1..])
  {
    SplitSkips(data[p..]);
    assert data[p..][1..] == data[p + 1..];
  }

  lemma ScanTakes(data: Bytes, units: seq<Bytes>, p: nat, nal: nat, end: nat)
    requires p < nal <= end <= |data| && CodeLength(data[p..]) != 0
    requires nal == p + CodeLength(data[p..]) && end == nal + Lead(data[nal..])
    requires Scanned(data, units, data[p..])
    ensures Scanned(data, units + NonEmpty(data[nal..end]), data[end..])
  {
    SplitStep(data, p, nal, end);
    Associate(units, NonEmpty(data[nal..end]), Split(data[end..]));
  }

  lemma ScanBegins(data: Bytes)
    ensures Scanned(data, [], data[0..])
  {
    assert data[0..] == data;
  }

  lemma ScanEnds(data: Bytes, units: seq<Bytes>, p: nat)
    requires p == |data| && Scanned(data, units, data[p..])
    ensures units == Split(data)
  {
    assert data[p..] == [];
  }

  /** `android::SplitAnnexB`; the result is false when there is no unit. */
  method SplitAnnexB(data: Bytes) returns (ok: bool, units: seq<Bytes>)
    ensures units == Split(data)
    ensures ok <==> units != []
  {
    units := [];
    var p := 0;
    ScanBegins(data);
    while p < |data|
      invariant p <= |data|
      invariant Scanned(data, units, data[p..])
    {
      var sc := CodeLength(data[p..]);
      if sc == 0 {
        ScanSkips(data, units, p);
        p := p + 1;
      } else {
        var nal := p + sc;
        var end := SkipToCode(data, nal);
        ScanTakes(data, units, p, nal, end);
        units := units + NonEmpty(data[nal..end]);
        p := end;
      }
    }
    ScanEnds(data, units, p);
    ok := units != [];
  }
}
