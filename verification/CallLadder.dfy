/** The SIP ladder of a call's trace: which messages become arrows, where the rows go, the phase of
    each arrow, the background bands, and the markers of admin actions. */
module CallLadder {
  import opened Basics
  import opened Decimals

  // ---------- reading a first line ----------

  predicate HasPrefix(s: string, prefix: string) {
    prefix <= s
  }

  /** The text up to the first space, and what follows it if there is one. */
  function Cut(s: string): (r: (string, Option<string>))
    ensures ' ' !in r.0
    ensures r.1.None? ==> r.0 == s
    ensures r.1.Some? ==> s == r.0 + " " + r.1.value
  {
    if s == "" then ("", None)
    else if s[0] == ' ' then ("", Some(s[1..]))
    else
      var (word, rest) := Cut(s[1..]);
      ([s[0]] + word, rest)
  }

  /** An optionally signed decimal; zero for anything else. */
  function Atoi(s: string): int {
    var signed := s != "" && (s[0] == '+' || s[0] == '-');
    var body := if signed then s[1..] else s;
    if body == "" || !Digits(body) then 0
    else if signed && s[0] == '-' then -DigitsValue(body)
    else DigitsValue(body)
  }

  function FirstCode(summary: string): int {
    if !HasPrefix(summary, "SIP/") then 0
    else
      var rest := Cut(summary).1;
      if rest.None? then 0 else Atoi(Cut(rest.value).0)
  }

  // ---------- phases ----------

  datatype Phase = Setup | Ringback | Talk | Teardown

  function Rank(p: Phase): nat {
    match p
    case Setup => 0
    case Ringback => 1
    case Talk => 2
    case Teardown => 3
  }

  /** A provisional response (section 7.2 of RFC 3261). */
  predicate Provisional(summary: string) {
    HasPrefix(summary, "SIP/") && 100 <= FirstCode(summary) < 200
  }

  predicate Success(summary: string) {
    HasPrefix(summary, "SIP/") && 200 <= FirstCode(summary) < 300
  }

  predicate Ends(summary: string) {
    HasPrefix(summary, "BYE ") || HasPrefix(summary, "CANCEL ")
  }

  function Advance(state: Phase, summary: string): Phase {
    if state == Setup && Provisional(summary) then Ringback
    else if (state == Setup || state == Ringback) && Success(summary) then Talk
    else if state == Talk && Ends(summary) then Teardown
    else state
  }

  /** The phase after a stretch of messages, which is also the label of its last one. */
  function After(lines: seq<string>): Phase {
    if lines == [] then Setup else Advance(After(lines[..|lines| - 1]), lines[|lines| - 1])
  }

  lemma {:induction false} PhasesNeverGoBack(lines: seq<string>, i: nat, j: nat)
    requires i <= j <= |lines|
    ensures Rank(After(lines[..i])) <= Rank(After(lines[..j]))
    decreases j
  {
    hide Provisional, Success, Ends;
    if i < j {
      PhasesNeverGoBack(lines, i, j - 1);
      assert lines[..j][..j - 1] == lines[..j - 1];
    }
  }

  ghost predicate Some1xx(lines: seq<string>) {
    exists a :: 0 <= a < |lines| && Provisional(lines[a])
  }

  ghost predicate Some2xx(lines: seq<string>) {
    exists a :: 0 <= a < |lines| && Success(lines[a])
  }

  ghost predicate EndAfter2xx(lines: seq<string>) {
    exists a, b :: 0 <= a < b < |lines| && Success(lines[a]) && Ends(lines[b])
  }

  lemma OneMoreLine(before: seq<string>, x: string)
    ensures Some1xx(before + [x]) <==> Some1xx(before) || Provisional(x)
    ensures Some2xx(before + [x]) <==> Some2xx(before) || Success(x)
    ensures EndAfter2xx(before + [x]) <==> EndAfter2xx(before) || (Some2xx(before) && Ends(x))
  {
    hide Provisional, Success, Ends;
    var all := before + [x];
    assert all[|before|] == x;
    assert forall a :: 0 <= a < |before| ==> all[a] == before[a];
    if Some1xx(before) {
      var a :| 0 <= a < |before| && Provisional(before[a]);
      assert Provisional(all[a]);
    }
    if Some2xx(before) {
      var a :| 0 <= a < |before| && Success(before[a]);
      assert Success(all[a]);
      if Ends(x) {
        assert Success(all[a]) && Ends(all[|before|]);
      }
    }
    if EndAfter2xx(before) {
      var a, b :| 0 <= a < b < |before| && Success(before[a]) && Ends(before[b]);
      assert Success(all[a]) && Ends(all[b]);
    }
    if EndAfter2xx(all) {
      var a, b :| 0 <= a < b < |all| && Success(all[a]) && Ends(all[b]);
      assert Success(before[a]);
      if b < |before| {
        assert Ends(before[b]);
      }
    }
  }

  /** The state machine in terms of the messages alone. */
  lemma {:induction false} PhaseMeans(lines: seq<string>)
    ensures After(lines) == Setup <==> !Some1xx(lines) && !Some2xx(lines)
    ensures After(lines) == Ringback <==> Some1xx(lines) && !Some2xx(lines)
    ensures After(lines) == Talk <==> Some2xx(lines) && !EndAfter2xx(lines)
    ensures After(lines) == Teardown <==> EndAfter2xx(lines)
  {
    if lines == [] {
      return;
    }
    var before, x := lines[..|lines| - 1], lines[|lines| - 1];
    assert lines == before + [x];
    PhaseMeans(before);
    OneMoreLine(before, x);
    KindsExclude(x);
    NoEndWithout2xx(before);
    hide Provisional, Success, Ends, Some1xx, Some2xx, EndAfter2xx;
  }

  lemma NoEndWithout2xx(lines: seq<string>)
    ensures EndAfter2xx(lines) ==> Some2xx(lines)
  {
    hide Success, Ends;
  }

  /** No message is two kinds at once. */
  lemma KindsExclude(x: string)
    ensures !(Provisional(x) && Success(x)) && !(Provisional(x) && Ends(x)) && !(Success(x) && Ends(x))
  {
    if HasPrefix(x, "SIP/") {
      assert x[0] == "SIP/"[0];
      assert "BYE "[0] != "SIP/"[0] && "CANCEL "[0] != "SIP/"[0];
      assert !HasPrefix(x, "BYE ") && !HasPrefix(x, "CANCEL ");
    }
  }

  // ---------- arrows ----------

  /** Timestamps are milliseconds since the epoch. */
  datatype Message = Message(src: string, dst: string, summary: string, time: int)

  datatype Arrow = Arrow(index: nat, y: int, phase: Phase)

  const ROW_FIRST_Y := 138
  const ROW_MIN := 38
  const ROW_MAX := 110

  predicate Drawn(m: Message, laneOf: map<string, int>) {
    m.src in laneOf && m.dst in laneOf && laneOf[m.src] != laneOf[m.dst]
  }

  /** The messages between two different lanes, in trace order. */
  ghost predicate Picks(idxs: seq<int>, msgs: seq<Message>, laneOf: map<string, int>) {
    && (forall a, b :: 0 <= a < b < |idxs| ==> idxs[a] < idxs[b])
    && (forall i :: i in idxs <==> 0 <= i < |msgs| && Drawn(msgs[i], laneOf))
  }

  method PickMessages(msgs: seq<Message>, laneOf: map<string, int>) returns (idxs: seq<int>)
    ensures Picks(idxs, msgs, laneOf)
  {
    idxs := [];
    var i := 0;
    while i < |msgs|
      invariant 0 <= i <= |msgs|
      invariant forall a, b :: 0 <= a < b < |idxs| ==> idxs[a] < idxs[b]
      invariant forall k :: k in idxs <==> 0 <= k < i && Drawn(msgs[k], laneOf)
    {
      if Drawn(msgs[i], laneOf) {
        assert forall a :: 0 <= a < |idxs| ==> idxs[a] in idxs;
        idxs := idxs + [i];
      }
      i := i + 1;
    }
  }

  predicate InRange(idxs: seq<int>, n: int) {
    forall k :: 0 <= k < |idxs| ==> 0 <= idxs[k] < n
  }

  /** Rows start at the first line and are between the smallest and the largest gap apart. */
  ghost predicate Laid(arrows: seq<Arrow>) {
    && (|arrows| > 0 ==> arrows[0].y == 138)
    && (forall i :: 0 < i < |arrows| ==> 38 <= arrows[i].y - arrows[i - 1].y <= 110)
  }

  /** The height of a row after a silence; `stretch` stands for the scaled logarithm. */
  function RowHeight(silence: int, stretch: nat -> int): (h: int)
    ensures 38 <= h <= 110
  {
    var scaled := ROW_MIN + stretch(if silence < 0 then 0 else silence);
    if scaled < ROW_MIN then ROW_MIN else if scaled > ROW_MAX then ROW_MAX else scaled
  }

  /** The row's height is 38 and the stretch, cut off at 110; a negative silence counts as none. */
  lemma RowHeightMeans(silence: nat, backwards: int, stretch: nat -> int)
    requires backwards < 0
    ensures 0 <= stretch(silence) <= 72 ==> RowHeight(silence, stretch) == 38 + stretch(silence)
    ensures stretch(silence) > 72 ==> RowHeight(silence, stretch) == 110
    ensures stretch(silence) < 0 ==> RowHeight(silence, stretch) == 38
    ensures RowHeight(backwards, stretch) == RowHeight(0, stretch)
  {
  }

  method Gap(silence: int, stretch: nat -> int) returns (scaled: int)
    ensures scaled == RowHeight(silence, stretch)
  {
    var gap := silence;
    if gap < 0 { gap := 0; }
    scaled := ROW_MIN + stretch(gap);
    if scaled < ROW_MIN { scaled := ROW_MIN; }
    if scaled > ROW_MAX { scaled := ROW_MAX; }
  }

  method LayRows(msgs: seq<Message>, idxs: seq<int>, stretch: nat -> int) returns (arrows: array<Arrow>)
    requires InRange(idxs, |msgs|)
    ensures fresh(arrows) && arrows.Length == |idxs| && Laid(arrows[..])
    ensures forall k :: 0 <= k < |idxs| ==> arrows[k].index == idxs[k] + 1
    ensures forall k :: 0 < k < |idxs| ==>
              arrows[k].y - arrows[k - 1].y == RowHeight(msgs[idxs[k]].time - msgs[idxs[k - 1]].time, stretch)
  {
    hide RowHeight, Laid;
    arrows := new Arrow[|idxs|](_ => Arrow(0, 0, Setup));
    var y := ROW_FIRST_Y;
    var prev := 0;
    var i := 0;
    while i < |idxs|
      invariant 0 <= i <= |idxs|
      invariant i == 0 ==> y == ROW_FIRST_Y
      invariant i > 0 ==> arrows[0].y == ROW_FIRST_Y && y == arrows[i - 1].y && prev == msgs[idxs[i - 1]].time
      invariant forall k :: 0 <= k < i ==> arrows[k].index == idxs[k] + 1
      invariant forall k :: 0 < k < i ==>
                  arrows[k].y - arrows[k - 1].y == RowHeight(msgs[idxs[k]].time - msgs[idxs[k - 1]].time, stretch)
    {
      var time := msgs[idxs[i]].time;
      if i > 0 {
        var scaled := Gap(time - prev, stretch);
        y := y + scaled;
      }
      prev := time;
      arrows[i] := Arrow(idxs[i] + 1, y, Setup);
      i := i + 1;
    }
    GapsAreLaid(arrows[..], msgs, idxs, stretch);
  }

  lemma GapsAreLaid(arrows: seq<Arrow>, msgs: seq<Message>, idxs: seq<int>, stretch: nat -> int)
    requires |arrows| == |idxs| && InRange(idxs, |msgs|) && (|arrows| > 0 ==> arrows[0].y == ROW_FIRST_Y)
    requires forall k :: 0 < k < |idxs| ==>
               arrows[k].y - arrows[k - 1].y == RowHeight(msgs[idxs[k]].time - msgs[idxs[k - 1]].time, stretch)
    ensures Laid(arrows)
  {
  }

  /** The first lines of the arrows' messages. */
  function Lines(msgs: seq<Message>, idxs: seq<int>): (lines: seq<string>)
    requires InRange(idxs, |msgs|)
    ensures |lines| == |idxs| && forall k :: 0 <= k < |idxs| ==> lines[k] == msgs[idxs[k]].summary
  {
    seq(|idxs|, k requires 0 <= k < |idxs| => msgs[idxs[k]].summary)
  }

  lemma NextPhase(lines: seq<string>)
    ensures After(lines[..0]) == Setup
    ensures forall i :: 0 <= i < |lines| ==> After(lines[..i + 1]) == Advance(After(lines[..i]), lines[i])
  {
    hide Advance;
    forall i | 0 <= i < |lines| ensures After(lines[..i + 1]) == Advance(After(lines[..i]), lines[i]) {
      assert lines[..i + 1][..i] == lines[..i];
    }
  }

  /** Labels each arrow in place. The message that triggers a change is labelled with the new phase. */
  method ClassifyPhases(arrows: array<Arrow>, msgs: seq<Message>, idxs: seq<int>)
    requires arrows.Length == |idxs| && InRange(idxs, |msgs|)
    modifies arrows
    ensures forall k :: 0 <= k < arrows.Length ==>
        arrows[k] == old(arrows[k]).(phase := After(Lines(msgs, idxs)[..k + 1]))
  {
    hide Provisional, Success, Ends, After;
    ghost var lines := Lines(msgs, idxs);
    NextPhase(lines);
    var state := Setup;
    var i := 0;
    while i < arrows.Length
      invariant 0 <= i <= arrows.Length
      invariant state == After(lines[..i])
      invariant forall k :: 0 <= k < i ==> arrows[k] == old(arrows[k]).(phase := After(lines[..k + 1]))
      invariant forall k :: i <= k < arrows.Length ==> arrows[k] == old(arrows[k])
    {
      var summary := msgs[idxs[i]].summary;
      if state == Setup && Provisional(summary) {
        state := Ringback;
      } else if (state == Setup || state == Ringback) && Success(summary) {
        state := Talk;
      } else if state == Talk && Ends(summary) {
        state := Teardown;
      }
      arrows[i] := arrows[i].(phase := state);
      if Success(summary) && state == Talk && arrows[i].phase != Teardown {
        arrows[i] := arrows[i].(phase := Talk);
      }
      i := i + 1;
    }
  }

  // ---------- bands ----------

  datatype Band = Band(kind: Phase, y: int, h: int)

  /** Where the band that starts at `starts[k]` stops, when the first `n` arrows are banded. */
  function Stop(starts: seq<int>, k: nat, n: int): int
    requires k < |starts|
  {
    if k + 1 < |starts| then starts[k + 1] else n
  }

  /** The edge above arrow `at`, or below the last arrow. */
  function Edge(arrows: seq<Arrow>, at: nat): int
    requires 0 < |arrows|
  {
    if at < |arrows| then arrows[at].y - 22 else arrows[|arrows| - 1].y + 22
  }

  /** A maximal stretch of one phase, from arrow `a` up to `z`, and the band drawn behind it. */
  ghost predicate Run(arrows: seq<Arrow>, a: int, z: int, band: Band) {
    && 0 <= a < z <= |arrows|
    && (forall i :: a <= i < z ==> arrows[i].phase == band.kind)
    && (z < |arrows| ==> arrows[z].phase != band.kind)
    && band.y == Edge(arrows, a) && band.y + band.h == Edge(arrows, z)
  }

  /** The first `n` arrows cut into runs, a band for each. */
  ghost predicate Runs(arrows: seq<Arrow>, n: nat, starts: seq<int>, bands: seq<Band>) {
    && |starts| == |bands| && n <= |arrows| && (n > 0 <==> |starts| > 0) && (|starts| > 0 ==> starts[0] == 0)
    && (forall k :: 0 <= k < |starts| ==> Run(arrows, starts[k], Stop(starts, k, n), bands[k]))
  }

  lemma OneMoreBand(arrows: seq<Arrow>, n: nat, starts: seq<int>, bands: seq<Band>, i: nat, band: Band)
    requires Runs(arrows, n, starts, bands) && Run(arrows, n, i, band)
    ensures Runs(arrows, i, starts + [n], bands + [band])
  {
    hide Run;
    var more, all := starts + [n], bands + [band];
    assert i > 0 by { assert Run(arrows, n, i, band); RunBounds(arrows, n, i, band); }
    RunBounds(arrows, n, i, band);
    forall k | 0 <= k < |more| ensures Run(arrows, more[k], Stop(more, k, i), all[k]) {
      if k < |starts| {
        assert Run(arrows, starts[k], Stop(starts, k, n), bands[k]);
        assert Stop(more, k, i) == Stop(starts, k, n);
      }
    }
  }

  lemma RunBounds(arrows: seq<Arrow>, a: int, z: int, band: Band)
    requires Run(arrows, a, z, band)
    ensures 0 <= a < z <= |arrows|
  {
  }

  method BuildPhaseBands(arrows: seq<Arrow>) returns (bands: seq<Band>)
    ensures exists starts :: Runs(arrows, |arrows|, starts, bands)
  {
    bands := [];
    ghost var starts := [];
    assert Runs(arrows, 0, starts, bands);
    if |arrows| == 0 { return; }
    var startIdx := 0;
    var i := 1;
    while i <= |arrows|
      invariant 1 <= i <= |arrows| + 1
      invariant 0 <= startIdx <= |arrows| && (if i <= |arrows| then startIdx < i else startIdx == |arrows|)
      invariant Runs(arrows, startIdx, starts, bands)
      invariant forall j :: startIdx <= j < i && j < |arrows| ==> arrows[j].phase == arrows[startIdx].phase
    {
      hide Runs;
      if i == |arrows| || arrows[i].phase != arrows[startIdx].phase {
        var top := arrows[startIdx].y - 22;
        var bottom;
        if i == |arrows| {
          bottom := arrows[i - 1].y + 22;
        } else {
          bottom := arrows[i].y - 22;
        }
        var band := Band(arrows[startIdx].phase, top, bottom - top);
        assert Run(arrows, startIdx, i, band);
        OneMoreBand(arrows, startIdx, starts, bands, i, band);
        bands := bands + [band];
        starts := starts + [startIdx];
        startIdx := i;
      }
      i := i + 1;
    }
  }

  /** Phases that never go back. */
  ghost predicate Forward(arrows: seq<Arrow>) {
    forall i, j :: 0 <= i <= j < |arrows| ==> Rank(arrows[i].phase) <= Rank(arrows[j].phase)
  }

  lemma {:induction false} RowsAscend(arrows: seq<Arrow>, i: nat, j: nat)
    requires Laid(arrows) && i <= j < |arrows|
    ensures ROW_MIN * (j - i) <= arrows[j].y - arrows[i].y <= ROW_MAX * (j - i)
    decreases j
  {
    if i < j {
      RowsAscend(arrows, i, j - 1);
    }
  }

  lemma EdgesAscend(arrows: seq<Arrow>, i: nat, j: nat)
    requires Laid(arrows) && i < j <= |arrows|
    ensures Edge(arrows, i) < Edge(arrows, j)
    ensures Edge(arrows, i) < arrows[i].y < Edge(arrows, i + 1)
  {
    RowsAscend(arrows, i, if j < |arrows| then j else |arrows| - 1);
    if i + 1 < |arrows| {
      RowsAscend(arrows, i, i + 1);
    }
  }

  lemma NextBand(arrows: seq<Arrow>, starts: seq<int>, bands: seq<Band>, k: nat)
    requires 0 < |arrows| && Runs(arrows, |arrows|, starts, bands) && Forward(arrows)
    requires k + 1 < |bands|
    ensures Rank(bands[k].kind) < Rank(bands[k + 1].kind)
    ensures bands[k].y + bands[k].h == bands[k + 1].y
  {
    hide Edge, Forward;
    var a, b := starts[k], starts[k + 1];
    assert Stop(starts, k, |arrows|) == b && a < b < Stop(starts, k + 1, |arrows|);
    assert bands[k].kind == arrows[a].phase && bands[k + 1].kind == arrows[b].phase;
    RanksAscend(arrows, a, b);
  }

  lemma RanksAscend(arrows: seq<Arrow>, i: nat, j: nat)
    requires Forward(arrows) && i <= j < |arrows|
    ensures Rank(arrows[i].phase) < Rank(arrows[j].phase) || arrows[i].phase == arrows[j].phase
  {
  }

  /** Bands stacked without a gap, later phases lower. */
  ghost predicate Stacked(bands: seq<Band>) {
    && (forall k :: 0 <= k < |bands| ==> bands[k].h > 0)
    && (forall k :: 0 < k < |bands| ==>
          bands[k - 1].y + bands[k - 1].h == bands[k].y && Rank(bands[k - 1].kind) < Rank(bands[k].kind))
  }

  lemma {:induction false} StackAscends(bands: seq<Band>, k: nat, l: nat)
    requires Stacked(bands) && k < l < |bands|
    ensures Rank(bands[k].kind) + (l - k) <= Rank(bands[l].kind)
    ensures bands[k].y + bands[k].h <= bands[l].y
    decreases l
  {
    if k < l - 1 {
      StackAscends(bands, k, l - 1);
    }
  }

  /** The bands are positive and tile the ladder from above the first row to below the last. */
  lemma BandsTile(arrows: seq<Arrow>, starts: seq<int>, bands: seq<Band>)
    requires 0 < |arrows| && Runs(arrows, |arrows|, starts, bands) && Laid(arrows) && Forward(arrows)
    ensures |bands| > 0 && bands[0].y == 138 - 22
    ensures bands[|bands| - 1].y + bands[|bands| - 1].h == arrows[|arrows| - 1].y + 22
    ensures Stacked(bands)
  {
    var last := |bands| - 1;
    assert Run(arrows, starts[0], Stop(starts, 0, |arrows|), bands[0]);
    assert Run(arrows, starts[last], Stop(starts, last, |arrows|), bands[last]);
    forall k | 0 <= k < |bands| ensures bands[k].h > 0 {
      assert Run(arrows, starts[k], Stop(starts, k, |arrows|), bands[k]);
      EdgesAscend(arrows, starts[k], Stop(starts, k, |arrows|));
    }
    forall k | 0 < k < |bands|
      ensures bands[k - 1].y + bands[k - 1].h == bands[k].y && Rank(bands[k - 1].kind) < Rank(bands[k].kind)
    {
      NextBand(arrows, starts, bands, k - 1);
    }
  }

  /** At most four bands, all of different kinds. */
  lemma FourKinds(bands: seq<Band>)
    requires Stacked(bands)
    ensures |bands| <= 4
    ensures forall k, l :: 0 <= k < l < |bands| ==> bands[k].kind != bands[l].kind
  {
    forall k, l | 0 <= k < l < |bands| ensures bands[k].kind != bands[l].kind {
      StackAscends(bands, k, l);
    }
    if |bands| > 1 {
      StackAscends(bands, 0, |bands| - 1);
    }
  }

  lemma {:induction false} RunOf(starts: seq<int>, n: nat, i: nat) returns (k: nat)
    requires |starts| > 0 && starts[0] == 0 && i < n
    ensures k < |starts| && starts[k] <= i < Stop(starts, k, n)
    decreases |starts|
  {
    var last := |starts| - 1;
    if starts[last] <= i {
      k := last;
    } else {
      var m := starts[last];
      forall j | 0 <= j < last ensures Stop(starts[..last], j, m) == Stop(starts, j, n) {
      }
      k := RunOf(starts[..last], m, i);
    }
  }

  predicate Covers(b: Band, y: int) {
    b.y <= y < b.y + b.h
  }

  /** Every arrow lies in a band of its own phase, and in no band of another. */
  lemma ArrowInItsBand(arrows: seq<Arrow>, starts: seq<int>, bands: seq<Band>, i: nat)
    requires i < |arrows| && Runs(arrows, |arrows|, starts, bands) && Laid(arrows) && Forward(arrows)
    ensures exists k :: 0 <= k < |bands| && Covers(bands[k], arrows[i].y)
    ensures forall k :: 0 <= k < |bands| ==> (Covers(bands[k], arrows[i].y) <==> bands[k].kind == arrows[i].phase)
  {
    BandsTile(arrows, starts, bands);
    var k := RunOf(starts, |arrows|, i);
    InRun(arrows, starts, bands, i, k);
    hide Runs, Laid, Forward;
    forall l | 0 <= l < |bands| && l != k
      ensures !Covers(bands[l], arrows[i].y) && bands[l].kind != arrows[i].phase
    {
      if l < k {
        StackAscends(bands, l, k);
      } else {
        StackAscends(bands, k, l);
      }
    }
  }

  lemma InRun(arrows: seq<Arrow>, starts: seq<int>, bands: seq<Band>, i: nat, k: nat)
    requires i < |arrows| && Runs(arrows, |arrows|, starts, bands) && Laid(arrows)
    requires k < |starts| && starts[k] <= i < Stop(starts, k, |arrows|)
    ensures Covers(bands[k], arrows[i].y) && bands[k].kind == arrows[i].phase
  {
    EdgesAscend(arrows, i, i + 1);
    if starts[k] < i {
      EdgesAscend(arrows, starts[k], i);
    }
    if i + 1 < Stop(starts, k, |arrows|) {
      EdgesAscend(arrows, i + 1, Stop(starts, k, |arrows|));
    }
    hide Edge, Laid;
  }

  // ---------- reading a status line ----------

  lemma {:induction false} CutAtSpace(word: string, rest: string)
    requires ' ' !in word
    ensures Cut(word + " " + rest) == (word, Some(rest))
  {
    if word == "" {
      assert word + " " + rest == " " + rest;
    } else {
      CutAtSpace(word[1..], rest);
      assert (word + " " + rest)[1..] == word[1..] + " " + rest;
      assert (word + " " + rest)[0] == word[0] && word[0] in word;
      assert [word[0]] + word[1..] == word;
    }
  }

  lemma {:induction false} CutWithoutSpace(word: string)
    requires ' ' !in word
    ensures Cut(word) == (word, None)
  {
    if word != "" {
      CutWithoutSpace(word[1..]);
    }
  }

  /** The code of a status line is the number after the version, with or without a reason phrase. */
  lemma StatusLineCode(version: string, digits: string, reason: string)
    requires HasPrefix(version, "SIP/") && ' ' !in version && digits != "" && Digits(digits)
    ensures FirstCode(version + " " + digits + " " + reason) == DigitsValue(digits)
    ensures FirstCode(version + " " + digits) == DigitsValue(digits)
  {
    assert ' ' !in digits;
    LineCode(version, digits + " " + reason);
    assert version + " " + digits + " " + reason == version + " " + (digits + " " + reason);
    CutAtSpace(digits, reason);
    LineCode(version, digits);
    CutWithoutSpace(digits);
    assert digits[0] != '+' && digits[0] != '-';
  }

  /** A response is provisional from 100 to 199 and a success from 200 to 299, a request ends the call if its method is
      BYE or CANCEL, and no line is of two kinds. */
  lemma KindsMean(version: string, digits: string, reason: string)
    requires "SIP/" <= version && ' ' !in version && digits != "" && Digits(digits)
    ensures var line := version + " " + digits + " " + reason;
      && (Provisional(line) <==> 100 <= DigitsValue(digits) <= 199)
      && (Success(line) <==> 200 <= DigitsValue(digits) <= 299) && !Ends(line)
    ensures Ends("BYE " + reason) && Ends("CANCEL " + reason)
    ensures forall line :: !("SIP/" <= line) ==> !Provisional(line) && !Success(line)
    ensures forall line :: Ends(line) ==> "BYE " <= line || "CANCEL " <= line
  {
    var line := version + " " + digits + " " + reason;
    StatusLineCode(version, digits, reason);
    assert line[..4] == version[..4] && line[0] == 'S';
    assert HasPrefix(line, "SIP/");
    assert ("BYE " + reason)[..4] == "BYE " && ("CANCEL " + reason)[..7] == "CANCEL ";
    hide FirstCode;
  }

  lemma LineCode(version: string, rest: string)
    requires HasPrefix(version, "SIP/") && ' ' !in version
    ensures FirstCode(version + " " + rest) == Atoi(Cut(rest).0)
  {
    CutAtSpace(version, rest);
    var line := version + " " + rest;
    assert line[..4] == version[..4];
    assert HasPrefix(line, "SIP/");
  }

  // ---------- admin markers ----------

  datatype AdminEvent = AdminEvent(action: string, time: int)

  datatype Marker = Marker(y: int, afterArrow: nat, actionClass: string, title: string, badgeX: int, badgeW: int)

  function ActionClass(action: string): string {
    match action
    case "live_hangup" => "hangup"
    case "live_warn" => "warn"
    case "live_redirect" => "redirect"
    case _ => "other"
  }

  /** `shout` is the upper-casing used for actions without a title of their own. */
  function ActionTitle(action: string, shout: string -> string): string {
    match action
    case "live_hangup" => "ADMIN HANGUP"
    case "live_warn" => "ADMIN WARN (prompt + hangup)"
    case "live_redirect" => "ADMIN REDIRECT"
    case _ => shout(action)
  }

  /** How many arrows in a row, from the first, are no later than `time`. */
  function LeadingEarlier(times: seq<int>, time: int): (n: nat)
    ensures n <= |times|
    ensures forall i :: 0 <= i < n ==> times[i] <= time
    ensures n < |times| ==> times[n] > time
  {
    if times == [] || times[0] > time then 0 else 1 + LeadingEarlier(times[1..], time)
  }

  lemma {:induction false} BeforeIs(times: seq<int>, time: int, n: nat)
    requires n <= |times| && (forall i :: 0 <= i < n ==> times[i] <= time) && (n < |times| ==> times[n] > time)
    ensures LeadingEarlier(times, time) == n
  {
    if n > 0 {
      BeforeIs(times[1..], time, n - 1);
    }
  }

  /** The marker sits after the last arrow no later than the event exactly when no arrow past a later
      one is early again; in particular when the trace is in time order. */
  lemma AfterLastEarlierArrowIff(times: seq<int>, time: int)
    ensures (forall i :: 0 <= i < |times| ==> (times[i] <= time <==> i < LeadingEarlier(times, time)))
            <==> !(exists i, j :: 0 <= i < j < |times| && times[i] > time && times[j] <= time)
  {
    var n := LeadingEarlier(times, time);
    if i, j :| 0 <= i < j < |times| && times[i] > time && times[j] <= time {
      assert i >= n;
    } else {
      forall i | 0 <= i < |times| ensures times[i] <= time <==> i < n {
        if n < i {
          assert times[n] > time;
        }
      }
    }
  }

  function MarkerY(arrows: seq<Arrow>, after: nat): int
    requires 0 < |arrows| && after <= |arrows|
  {
    if after == 0 then arrows[0].y - 24 else arrows[after - 1].y + 24
  }

  /** A marker is drawn between the rows it comes between, below the endpoint cards. */
  lemma MarkerBetweenRows(arrows: seq<Arrow>, after: nat)
    requires 0 < |arrows| && after <= |arrows| && Laid(arrows)
    ensures 110 < MarkerY(arrows, after)
    ensures forall i :: 0 <= i < after ==> arrows[i].y < MarkerY(arrows, after)
    ensures forall i :: after <= i < |arrows| ==> MarkerY(arrows, after) < arrows[i].y
  {
    if after > 0 {
      RowsAscend(arrows, 0, after - 1);
      forall i | 0 <= i < after ensures arrows[i].y < MarkerY(arrows, after) {
        RowsAscend(arrows, i, after - 1);
      }
    }
    forall i | after <= i < |arrows| ensures MarkerY(arrows, after) < arrows[i].y {
      RowsAscend(arrows, if after == 0 then 0 else after - 1, i);
    }
  }

  const LIFELINE_TOP := 110
  const BOTTOM_PAD := 28
  const MIN_WIDTH := 760

  /** The badge is centred, and stays forty pixels off both edges of any diagram wide enough to exist. */
  ghost predicate BadgeFits(m: Marker, width: int) {
    && 40 <= m.badgeX && m.badgeX + m.badgeW <= width - 40 && 320 <= m.badgeW
    && 0 <= width - m.badgeW - 2 * m.badgeX <= 1
    && var wanted := 7 * |m.title| + 220;
       if wanted > width - 80 then m.badgeW == width - 80 else m.badgeW == wanted || (wanted < 320 && m.badgeW == 320)
  }

  method BuildAdminMarkers(arrows: seq<Arrow>, times: seq<int>, events: seq<AdminEvent>, width: int,
                           shout: string -> string) returns (out: seq<Marker>)
    requires |times| == |arrows| && width >= MIN_WIDTH
    ensures |arrows| == 0 ==> out == []
    ensures |arrows| > 0 ==> |out| == |events|
    ensures |arrows| > 0 ==> forall k :: 0 <= k < |events| ==>
              && out[k].afterArrow == LeadingEarlier(times, events[k].time)
              && out[k].y == MarkerY(arrows, out[k].afterArrow)
              && out[k].actionClass == ActionClass(events[k].action)
              && out[k].title == ActionTitle(events[k].action, shout)
              && BadgeFits(out[k], width)
  {
    out := [];
    if |events| == 0 || |arrows| == 0 { return; }
    var k := 0;
    while k < |events|
      invariant 0 <= k <= |events| && |out| == k
      invariant forall j :: 0 <= j < k ==>
                  && out[j].afterArrow == LeadingEarlier(times, events[j].time)
                  && out[j].y == MarkerY(arrows, out[j].afterArrow)
                  && out[j].actionClass == ActionClass(events[j].action)
                  && out[j].title == ActionTitle(events[j].action, shout)
                  && BadgeFits(out[j], width)
    {
      hide LeadingEarlier, ActionClass, ActionTitle;
      var after := CountBefore(times, events[k].time);
      var y;
      if after == 0 { y := arrows[0].y - 24; } else { y := arrows[after - 1].y + 24; }
      var title := ActionTitle(events[k].action, shout);
      var badgeW := |title| * 7 + 220;
      if badgeW < 320 { badgeW := 320; }
      if badgeW > width - 80 { badgeW := width - 80; }
      var badgeX := (width - badgeW) / 2;
      if badgeX < 40 { badgeX := 40; }
      out := out + [Marker(y, after, ActionClass(events[k].action), title, badgeX, badgeW)];
      k := k + 1;
    }
  }

  /** Walks the arrows and stops at the first one that is later. */
  method CountBefore(times: seq<int>, time: int) returns (after: nat)
    ensures after == LeadingEarlier(times, time)
  {
    after := 0;
    while after < |times| && times[after] <= time
      invariant after <= |times|
      invariant forall i :: 0 <= i < after ==> times[i] <= time
    {
      after := after + 1;
    }
    BeforeIs(times, time, after);
  }

  // ---------- the whole diagram ----------

  datatype Diagram = Empty | Diagram(width: int, height: int, arrows: seq<Arrow>, bands: seq<Band>,
                                     markers: seq<Marker>)

  /** Arrows: one for each message between two lanes, inside the canvas. */
  ghost predicate ArrowsFine(d: Diagram, msgs: seq<Message>, laneOf: map<string, int>)
    requires d.Diagram?
  {
    && Laid(d.arrows) && (exists idxs :: InRange(idxs, |msgs|) && Shows(d.arrows, idxs, msgs, laneOf))
    && (forall i :: 0 <= i < |d.arrows| ==> d.arrows[i].y + 38 <= d.height)
  }

  /** Bands: at most four, of different kinds, tiling the rows, each arrow on its own phase's band only. */
  ghost predicate BandsFine(d: Diagram)
    requires d.Diagram?
  {
    if d.arrows == [] then d.bands == []
    else
      && Stacked(d.bands) && 1 <= |d.bands| <= 4 && d.bands[0].y == 138 - 22
      && d.bands[|d.bands| - 1].y + d.bands[|d.bands| - 1].h == d.arrows[|d.arrows| - 1].y + 22
      && (forall i, k :: 0 <= i < |d.arrows| && 0 <= k < |d.bands| ==>
            (Covers(d.bands[k], d.arrows[i].y) <==> d.bands[k].kind == d.arrows[i].phase))
  }

  /** Markers: one an event, between two rows and inside the canvas. */
  ghost predicate MarkersFine(d: Diagram, events: seq<AdminEvent>)
    requires d.Diagram?
  {
    if d.arrows == [] then d.markers == []
    else
      && |d.markers| == |events|
      && (forall k :: 0 <= k < |d.markers| ==>
            110 < d.markers[k].y && d.markers[k].y + 30 <= d.height && BadgeFits(d.markers[k], d.width))
      && (forall k, i :: 0 <= k < |d.markers| && 0 <= i < |d.arrows| ==>
            (d.arrows[i].y < d.markers[k].y <==> i < d.markers[k].afterArrow) && d.arrows[i].y != d.markers[k].y)
  }

  ghost predicate WellDrawn(d: Diagram, msgs: seq<Message>, laneOf: map<string, int>, events: seq<AdminEvent>) {
    d.Diagram? && d.width >= 760 && ArrowsFine(d, msgs, laneOf) && BandsFine(d) && MarkersFine(d, events)
  }

  /** One arrow for each message between two lanes, in order, labelled with the phase it leaves the call in. */
  ghost predicate Shows(arrows: seq<Arrow>, idxs: seq<int>, msgs: seq<Message>, laneOf: map<string, int>)
    requires InRange(idxs, |msgs|)
  {
    && Picks(idxs, msgs, laneOf) && |arrows| == |idxs|
    && (forall k :: 0 <= k < |idxs| ==>
        arrows[k].index == idxs[k] + 1 && arrows[k].phase == After(Lines(msgs, idxs)[..k + 1]))
  }

  lemma ShowsForward(arrows: seq<Arrow>, idxs: seq<int>, msgs: seq<Message>, laneOf: map<string, int>)
    requires InRange(idxs, |msgs|) && Shows(arrows, idxs, msgs, laneOf)
    ensures Forward(arrows)
  {
    hide After, Picks, Rank;
    forall i, j | 0 <= i <= j < |arrows| ensures Rank(arrows[i].phase) <= Rank(arrows[j].phase) {
      PhasesNeverGoBack(Lines(msgs, idxs), i + 1, j + 1);
    }
  }

  lemma ShowsLength(arrows: seq<Arrow>, idxs: seq<int>, msgs: seq<Message>, laneOf: map<string, int>)
    requires InRange(idxs, |msgs|) && Shows(arrows, idxs, msgs, laneOf)
    ensures |arrows| == |idxs|
  {
  }

  lemma PicksInRange(idxs: seq<int>, msgs: seq<Message>, laneOf: map<string, int>)
    requires Picks(idxs, msgs, laneOf)
    ensures InRange(idxs, |msgs|)
  {
    forall k | 0 <= k < |idxs| ensures 0 <= idxs[k] < |msgs| {
      assert idxs[k] in idxs;
    }
  }

  method BuildSequenceDiagram(msgs: seq<Message>, lanes: nat, laneOf: map<string, int>, events: seq<AdminEvent>,
                              stretch: nat -> int, shout: string -> string) returns (d: Diagram)
    ensures if msgs == [] || lanes == 0 then d == Empty else WellDrawn(d, msgs, laneOf, events)
  {
    if msgs == [] || lanes == 0 { return Empty; }
    var idxs := PickMessages(msgs, laneOf);
    PicksInRange(idxs, msgs, laneOf);
    hide LeadingEarlier, ActionClass, ActionTitle, MarkerY, BadgeFits, Runs, Laid, Shows, Picks, Stacked, ArrowsFine,
        BandsFine, MarkersFine;
    var arrows, bands := DrawArrows(msgs, idxs, laneOf, stretch);
    var width := 200 + (lanes - 1) * 280 + 140;
    if width < MIN_WIDTH { width := MIN_WIDTH; }
    var times := seq(|idxs|, k requires 0 <= k < |idxs| => msgs[idxs[k]].time);
    ShowsLength(arrows, idxs, msgs, laneOf);
    var markers := BuildAdminMarkers(arrows, times, events, width, shout);
    var height := CanvasHeight(arrows, markers);
    d := Diagram(width, height, arrows, bands, markers);
    FineArrows(d, idxs, msgs, laneOf);
    FineMarkers(d, events);
  }

  method DrawArrows(msgs: seq<Message>, idxs: seq<int>, laneOf: map<string, int>, stretch: nat -> int)
    returns (arrows: seq<Arrow>, bands: seq<Band>)
    requires InRange(idxs, |msgs|) && Picks(idxs, msgs, laneOf)
    ensures Shows(arrows, idxs, msgs, laneOf) && Laid(arrows)
    ensures exists starts :: Runs(arrows, |arrows|, starts, bands)
  {
    hide After, Picks, Runs;
    var rows := LayRows(msgs, idxs, stretch);
    ghost var laid := rows[..];
    ClassifyPhases(rows, msgs, idxs);
    arrows := rows[..];
    assert forall k :: 0 <= k < |arrows| ==> arrows[k].y == laid[k].y;
    bands := BuildPhaseBands(arrows);
  }

  method CanvasHeight(arrows: seq<Arrow>, markers: seq<Marker>) returns (height: int)
    requires Laid(arrows)
    ensures forall i :: 0 <= i < |arrows| ==> arrows[i].y + ROW_MIN <= height
    ensures forall k :: 0 <= k < |markers| ==> markers[k].y + 30 <= height
  {
    height := LIFELINE_TOP + 20 + BOTTOM_PAD;
    if |arrows| > 0 {
      height := arrows[|arrows| - 1].y + ROW_MIN + BOTTOM_PAD;
      forall i | 0 <= i < |arrows| ensures arrows[i].y + ROW_MIN <= height {
        RowsAscend(arrows, i, |arrows| - 1);
      }
    }
    var k := 0;
    while k < |markers|
      invariant 0 <= k <= |markers|
      invariant forall i :: 0 <= i < |arrows| ==> arrows[i].y + ROW_MIN <= height
      invariant forall j :: 0 <= j < k ==> markers[j].y + 30 <= height
    {
      if markers[k].y + 30 > height {
        height := markers[k].y + 30;
      }
      k := k + 1;
    }
  }

  lemma FineBands(d: Diagram, starts: seq<int>)
    requires d.Diagram? && Laid(d.arrows) && Forward(d.arrows) && Runs(d.arrows, |d.arrows|, starts, d.bands)
    ensures BandsFine(d)
  {
    if d.arrows != [] {
      BandsTile(d.arrows, starts, d.bands);
      FourKinds(d.bands);
      hide Runs, Stacked, Laid, Forward, Covers;
      forall i, k | 0 <= i < |d.arrows| && 0 <= k < |d.bands|
        ensures Covers(d.bands[k], d.arrows[i].y) <==> d.bands[k].kind == d.arrows[i].phase
      {
        ArrowInItsBand(d.arrows, starts, d.bands, i);
      }
    }
  }

  lemma FineArrows(d: Diagram, idxs: seq<int>, msgs: seq<Message>, laneOf: map<string, int>)
    requires d.Diagram? && InRange(idxs, |msgs|) && Shows(d.arrows, idxs, msgs, laneOf) && Laid(d.arrows)
    requires exists starts :: Runs(d.arrows, |d.arrows|, starts, d.bands)
    requires forall i :: 0 <= i < |d.arrows| ==> d.arrows[i].y + ROW_MIN <= d.height
    ensures ArrowsFine(d, msgs, laneOf) && BandsFine(d)
  {
    hide Runs, Laid, Shows, BandsFine;
    var starts :| Runs(d.arrows, |d.arrows|, starts, d.bands);
    ShowsForward(d.arrows, idxs, msgs, laneOf);
    FineBands(d, starts);
  }

  lemma FineMarkers(d: Diagram, events: seq<AdminEvent>)
    requires d.Diagram? && Laid(d.arrows)
    requires if d.arrows == [] then d.markers == [] else |d.markers| == |events|
    requires d.arrows != [] ==> forall k :: 0 <= k < |d.markers| ==>
               d.markers[k].afterArrow <= |d.arrows| && d.markers[k].y == MarkerY(d.arrows, d.markers[k].afterArrow)
               && BadgeFits(d.markers[k], d.width)
    requires forall k :: 0 <= k < |d.markers| ==> d.markers[k].y + 30 <= d.height
    ensures MarkersFine(d, events)
  {
    hide BadgeFits, MarkerY, Laid;
    if d.arrows != [] {
      forall k | 0 <= k < |d.markers|
        ensures LIFELINE_TOP < d.markers[k].y
        ensures forall i :: 0 <= i < |d.arrows| ==>
                  (d.arrows[i].y < d.markers[k].y <==> i < d.markers[k].afterArrow) && d.arrows[i].y != d.markers[k].y
      {
        MarkerBetweenRows(d.arrows, d.markers[k].afterArrow);
      }
    }
  }
}
