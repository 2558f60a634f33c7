/** The bounded line splitter of internal/process/logs.go. */
module LineSplitter {
  import opened Utf8

  const MaxLogLineBytes := 1024 * 1024
  const LF: byte := 10
  const CR: byte := 13

  /** How one ReadSlice('\n') call ended: at a newline, because the read buffer was
      full, or because the stream ended (with an error unless it was the end of file). */
  datatype Ending = Delimiter | BufferFull | EndOfFile | ReadFailure

  /** One ReadSlice result without its newline. */
  datatype Slice = Slice(data: seq<byte>, ending: Ending)

  ghost predicate Readable(slices: seq<Slice>) {
    && slices != []
    && (forall i :: 0 <= i < |slices| ==> LF !in slices[i].data)
    && (forall i :: 0 <= i < |slices| - 1 ==> slices[i].ending.Delimiter? || slices[i].ending.BufferFull?)
    && (slices[|slices| - 1].ending.EndOfFile? || slices[|slices| - 1].ending.ReadFailure?)
  }

  function Concat(parts: seq<seq<byte>>): seq<byte> {
    if parts == [] then [] else Concat(parts[..|parts| - 1]) + parts[|parts| - 1]
  }

  lemma {:induction false} ConcatAppend(a: seq<seq<byte>>, b: seq<seq<byte>>)
    ensures Concat(a + b) == Concat(a) + Concat(b)
    decreases |b|
  {
    if b == [] {
      assert a + b == a;
    } else {
      var front, last := b[..|b| - 1], b[|b| - 1];
      assert (a + b)[..|a + b| - 1] == a + front;
      ConcatAppend(a, front);
    }
  }

  // ---------- The greedy split ----------

  /** The greatest character boundary of s at or below p. */
  function BoundaryBelow(s: seq<byte>, p: nat): (b: nat)
    requires p <= |s|
    ensures b <= p
    ensures b > 0 ==> Boundary(s, b)
    ensures forall k :: b < k <= p ==> !Boundary(s, k)
  {
    if p == 0 || Boundary(s, p) then p else BoundaryBelow(s, p - 1)
  }

  /** Records of a line: repeatedly cut at the greatest boundary within the limit. */
  function Greedy(s: seq<byte>): (r: seq<seq<byte>>)
    ensures r != []
    decreases |s|
  {
    if |s| <= MaxLogLineBytes then [s]
    else
      var cut := BoundaryBelow(s, MaxLogLineBytes);
      if cut == 0 then [s] else [s[..cut]] + Greedy(s[cut..])
  }

  /** cut is where the greedy split divides s. */
  ghost predicate GreedyCut(s: seq<byte>, cut: int) {
    && 0 < cut <= MaxLogLineBytes < |s|
    && Boundary(s, cut)
    && forall k :: cut < k <= MaxLogLineBytes ==> !Boundary(s, k)
  }

  lemma GreedyCutValid(s: seq<byte>, cut: int)
    requires GreedyCut(s, cut)
    ensures 0 < cut <= |s| && Valid(s[..cut]) && Valid(s[cut..])
  {
  }

  lemma GreedyCutIs(s: seq<byte>, cut: int)
    requires GreedyCut(s, cut)
    ensures Greedy(s) == [s[..cut]] + Greedy(s[cut..])
  {
    var b := BoundaryBelow(s, MaxLogLineBytes);
    assert b == cut;
  }

  /** A valid line that is too long has a boundary within the limit. */
  lemma LongLineCuts(s: seq<byte>) returns (cut: nat)
    requires Valid(s) && |s| > MaxLogLineBytes
    ensures cut == BoundaryBelow(s, MaxLogLineBytes) && GreedyCut(s, cut)
    ensures 0 < cut <= |s| && Valid(s[..cut]) && Valid(s[cut..])
    ensures Greedy(s) == [s[..cut]] + Greedy(s[cut..])
  {
    cut := BoundaryBelow(s, MaxLogLineBytes);
    var q := StartNearby(s, MaxLogLineBytes);
    BoundaryIsStart(s, q);
  }

  /** No record exceeds the limit. */
  ghost predicate AllFit(records: seq<seq<byte>>) {
    forall i :: 0 <= i < |records| ==> |records[i]| <= MaxLogLineBytes
  }

  /** Every record but the last is full, up to the bytes of one character. */
  ghost predicate NearlyFull(records: seq<seq<byte>>) {
    forall i :: 0 <= i < |records| ==> |records[i]| >= MaxLogLineBytes - UTFMax
  }

  ghost predicate FullButLast(records: seq<seq<byte>>) {
    records != [] && NearlyFull(records[..|records| - 1])
  }

  lemma FullFront(front: seq<seq<byte>>, last: seq<byte>)
    ensures FullButLast(front + [last]) <==> NearlyFull(front)
  {
    assert (front + [last])[..|front|] == front;
  }

  lemma ShortLine(s: seq<byte>)
    ensures |s| <= MaxLogLineBytes ==> Greedy(s) == [s]
  {
  }

  ghost predicate ValidRecords(records: seq<seq<byte>>) {
    forall i :: 0 <= i < |records| ==> Valid(records[i])
  }

  lemma ConcatOne(part: seq<byte>)
    ensures Concat([part]) == part
  {
    assert Concat([part]) == Concat([]) + part;
  }

  /** The greedy split loses nothing. */
  lemma {:induction false} GreedyConserves(s: seq<byte>)
    requires Valid(s)
    ensures Concat(Greedy(s)) == s
    decreases |s|
  {
    hide *;
    if |s| <= MaxLogLineBytes {
      ShortLine(s);
      ConcatOne(s);
    } else {
      var cut := LongLineCuts(s);
      var tail := s[cut..];
      GreedyConserves(tail);
      ConcatOne(s[..cut]);
      ConcatAppend([s[..cut]], Greedy(tail));
      assert s == s[..cut] + tail;
    }
  }

  /** The greedy split of valid text has valid records. */
  lemma {:induction false} GreedyValid(s: seq<byte>)
    requires Valid(s)
    ensures ValidRecords(Greedy(s))
    decreases |s|
  {
    if |s| > MaxLogLineBytes {
      var cut := LongLineCuts(s);
      GreedyValid(s[cut..]);
    }
  }

  /** Having emitted some records of a line, what is pending would be completed by
      any valid continuation exactly as the greedy split of the whole line. */
  ghost predicate Resumes(line: seq<byte>, emitted: seq<seq<byte>>, pending: seq<byte>, rest: seq<byte>) {
    Valid(line + rest) ==> Valid(pending + rest) && Greedy(line + rest) == emitted + Greedy(pending + rest)
  }

  ghost predicate AllResume(line: seq<byte>, emitted: seq<seq<byte>>, pending: seq<byte>) {
    forall rest :: Resumes(line, emitted, pending, rest)
  }

  lemma ResumesStart(line: seq<byte>)
    ensures AllResume(line, [], line)
  {
    forall rest ensures Resumes(line, [], line, rest) {
      assert [] + Greedy(line + rest) == Greedy(line + rest);
    }
  }

  lemma Shift(a: seq<seq<byte>>, b: seq<byte>, c: seq<seq<byte>>)
    ensures a + ([b] + c) == a + [b] + c
  {
  }

  lemma ResumesCutAt(line: seq<byte>, emitted: seq<seq<byte>>, pending: seq<byte>, cut: nat, rest: seq<byte>)
    requires Resumes(line, emitted, pending, rest) && Valid(line + rest)
    requires cut <= |pending| && GreedyCut(pending + rest, cut)
    ensures Valid(pending[cut..] + rest)
    ensures Greedy(line + rest) == emitted + [pending[..cut]] + Greedy(pending[cut..] + rest)
  {
    hide Greedy, GreedyCut, Valid;
    var s := pending + rest;
    GreedyCutValid(s, cut);
    assert Greedy(line + rest) == emitted + Greedy(s);
    hide *;
    GreedyCutIs(s, cut);
    assert s[..cut] == pending[..cut] && s[cut..] == pending[cut..] + rest;
    Shift(emitted, s[..cut], Greedy(s[cut..]));
  }

  lemma ResumesCut(line: seq<byte>, emitted: seq<seq<byte>>, pending: seq<byte>, cut: nat)
    requires AllResume(line, emitted, pending)
    requires cut <= |pending| && forall rest :: Valid(pending + rest) ==> GreedyCut(pending + rest, cut)
    ensures AllResume(line, emitted + [pending[..cut]], pending[cut..])
  {
    forall rest ensures Resumes(line, emitted + [pending[..cut]], pending[cut..], rest) {
      assert Resumes(line, emitted, pending, rest);
      if Valid(line + rest) {
        ResumesCutAt(line, emitted, pending, cut, rest);
      }
    }
  }

  lemma ResumesMore(line: seq<byte>, emitted: seq<seq<byte>>, pending: seq<byte>, data: seq<byte>,
                    cuts: seq<seq<byte>>, pending': seq<byte>)
    requires AllResume(line, emitted, pending)
    requires AllResume(pending + data, cuts, pending')
    ensures AllResume(line + data, emitted + cuts, pending')
  {
    forall rest ensures Resumes(line + data, emitted + cuts, pending', rest) {
      assert line + data + rest == line + (data + rest);
      assert pending + data + rest == pending + (data + rest);
      assert Resumes(line, emitted, pending, data + rest);
      assert Resumes(pending + data, cuts, pending', rest);
      assert emitted + (cuts + Greedy(pending' + rest)) == emitted + cuts + Greedy(pending' + rest);
    }
  }

  // ---------- One cut ----------

  /** Where the code divides an over-long pending buffer. The second conclusion needs
      only a prefix of the line: bytes that have not been read cannot move the cut. */
  method FindCut(pending: seq<byte>) returns (cut: nat)
    requires |pending| > MaxLogLineBytes
    ensures MaxLogLineBytes - UTFMax <= cut <= MaxLogLineBytes
    ensures forall rest :: Valid(pending + rest) ==> GreedyCut(pending + rest, cut)
  {
    cut := MaxLogLineBytes;
    var start := cut;
    while start > cut - UTFMax && !RuneStart(pending[start])
      invariant cut - UTFMax <= start <= cut
      invariant forall k :: start < k <= cut ==> Tail(pending[k])
    {
      start := start - 1;
    }
    var found := start;
    if start < cut {
      var size := DecodeSize(pending[start..]);
      if start + size > cut || !FullRune(pending[start..]) {
        cut := start;
      }
    }
    forall rest | Valid(pending + rest) ensures GreedyCut(pending + rest, cut) {
      CutIsGreedy(pending, rest, found, cut);
    }
  }

  /** The search backwards has found the beginning of the character at the limit. */
  lemma FoundStart(pending: seq<byte>, rest: seq<byte>, start: nat)
    requires |pending| > MaxLogLineBytes && Valid(pending + rest)
    requires MaxLogLineBytes - UTFMax <= start <= MaxLogLineBytes
    requires forall k :: start < k <= MaxLogLineBytes ==> Tail(pending[k])
    requires start == MaxLogLineBytes - UTFMax || RuneStart(pending[start])
    ensures Covers(pending + rest, start, MaxLogLineBytes)
    ensures forall k :: start < k <= MaxLogLineBytes ==> Tail((pending + rest)[k])
  {
    hide Valid;
    var s := pending + rest;
    assert forall k :: 0 <= k < |pending| ==> s[k] == pending[k];
    var q := StartNearby(s, MaxLogLineBytes);
    assert s[start] == pending[start] && s[q] == pending[q];
    assert q == start;
  }

  lemma CutIsGreedy(pending: seq<byte>, rest: seq<byte>, start: nat, cut: nat)
    requires |pending| > MaxLogLineBytes && Valid(pending + rest)
    requires MaxLogLineBytes - UTFMax <= start <= MaxLogLineBytes
    requires forall k :: start < k <= MaxLogLineBytes ==> Tail(pending[k])
    requires start == MaxLogLineBytes - UTFMax || RuneStart(pending[start])
    requires cut == if start < MaxLogLineBytes
                       && (start + DecodeSize(pending[start..]) > MaxLogLineBytes || !FullRune(pending[start..]))
                    then start else MaxLogLineBytes
    ensures GreedyCut(pending + rest, cut)
  {
    var s := pending + rest;
    FoundStart(pending, rest, start);
    if start < MaxLogLineBytes {
      var seen := |pending| - start;
      assert |s[start..]| >= seen;
      assert pending[start..] == s[start..][..seen];
      if seen < CharLen(s[start..]) {
        PartialCharacter(s[start..], seen);
      } else {
        CharLenLocal(s[start..], pending[start..]);
      }
    }
    assert cut == start;
    StartsBound(s, cut);
  }

  /** A start byte followed only by continuation bytes up to the limit. */
  lemma StartsBound(s: seq<byte>, cut: nat)
    requires Valid(s) && 0 < cut <= MaxLogLineBytes < |s| && RuneStart(s[cut])
    requires forall k :: cut < k <= MaxLogLineBytes ==> Tail(s[k])
    ensures GreedyCut(s, cut)
  {
    BoundaryIsStart(s, cut);
    forall k | cut < k <= MaxLogLineBytes ensures !Boundary(s, k) {
      BoundaryIsStart(s, k);
    }
  }

  /** What the inner loop promises about the records it cuts off and the rest: no
      byte is lost, everything fits, the last byte stays pending, and the cuts are
      those of the greedy split whatever follows. */
  ghost predicate Drained(pending0: seq<byte>, cuts: seq<seq<byte>>, pending: seq<byte>) {
    && Concat(cuts) + pending == pending0
    && |pending| <= MaxLogLineBytes
    && (pending0 != [] ==> pending != [] && pending[|pending| - 1] == pending0[|pending0| - 1])
    && (|pending0| <= MaxLogLineBytes ==> cuts == [])
    && AllFit(cuts) && NearlyFull(cuts)
    && AllResume(pending0, cuts, pending)
  }

  lemma NoCuts(pending: seq<byte>)
    ensures Concat([]) + pending == pending && AllFit([]) && NearlyFull([])
  {
  }

  lemma CutFits(cuts: seq<seq<byte>>, cut: seq<byte>)
    requires AllFit(cuts) && NearlyFull(cuts) && MaxLogLineBytes - UTFMax <= |cut| <= MaxLogLineBytes
    ensures AllFit(cuts + [cut]) && NearlyFull(cuts + [cut])
  {
  }

  /** The inner loop: emits records until what is pending fits into one. */
  method DrainLong(pending0: seq<byte>) returns (cuts: seq<seq<byte>>, pending: seq<byte>)
    ensures Drained(pending0, cuts, pending)
  {
    hide AllResume, GreedyCut, Valid, AllFit, NearlyFull, Concat;
    cuts, pending := [], pending0;
    ResumesStart(pending0);
    NoCuts(pending0);
    while |pending| > MaxLogLineBytes
      invariant Concat(cuts) + pending == pending0
      invariant |pending0| <= MaxLogLineBytes ==> cuts == []
      invariant |pending| <= |pending0|
      invariant pending0 != [] ==> pending != [] && pending[|pending| - 1] == pending0[|pending0| - 1]
      invariant AllFit(cuts) && NearlyFull(cuts)
      invariant AllResume(pending0, cuts, pending)
      decreases |pending|
    {
      var cut := FindCut(pending);
      ResumesCut(pending0, cuts, pending, cut);
      ConcatAppend(cuts, [pending[..cut]]);
      ConcatOne(pending[..cut]);
      CutFits(cuts, pending[..cut]);
      ghost var cuts0, pending1 := cuts, pending;
      cuts := cuts + [pending[..cut]];
      pending := pending[cut..];
      Regroup(Concat(cuts0), pending1, [], pending1[..cut], pending);
      assert pending1[..cut] + pending == pending1 + [] == pending1;
    }
  }

  // ---------- Logical lines ----------

  /** A logical line and the part of it that arrived with its terminator. */
  datatype Line = Line(raw: seq<byte>, last: seq<byte>)

  /** Bytes of the line that is still unfinished after the first k slices. */
  function OpenLine(slices: seq<Slice>, k: nat): seq<byte>
    requires k <= |slices|
  {
    if k == 0 || !slices[k - 1].ending.BufferFull? then []
    else OpenLine(slices, k - 1) + slices[k - 1].data
  }

  /** Lines completed by the first k slices. A final line without a newline counts
      when it has content. */
  function Lines(slices: seq<Slice>, k: nat): seq<Line>
    requires k <= |slices|
  {
    if k == 0 then []
    else
      var slice := slices[k - 1];
      var raw := OpenLine(slices, k - 1) + slice.data;
      if slice.ending.Delimiter? || (!slice.ending.BufferFull? && raw != []) then
        Lines(slices, k - 1) + [Line(raw, slice.data)]
      else
        Lines(slices, k - 1)
  }

  function StripCR(raw: seq<byte>): seq<byte> {
    if raw != [] && raw[|raw| - 1] == CR then raw[..|raw| - 1] else raw
  }

  /** The line ends in a carriage return and its last record is exactly full. */
  predicate ReturnAtLimit(raw: seq<byte>) {
    var records := Greedy(StripCR(raw));
    StripCR(raw) != raw && |records[|records| - 1]| == MaxLogLineBytes
  }

  /** What a valid line is recorded as: its greedy split, and one empty record more
      when a read boundary separates its carriage return from its newline just as
      the last record is full. */
  function Expected(line: Line): seq<seq<byte>> {
    Greedy(StripCR(line.raw)) + if ReturnAtLimit(line.raw) && line.last == [] then [[]] else []
  }

  /** The recording of a valid line depends on the slicing exactly when the line
      ends in a carriage return that meets the limit. */
  lemma SlicingMatters(raw: seq<byte>, a: seq<byte>, b: seq<byte>)
    ensures Expected(Line(raw, a)) == Expected(Line(raw, b)) <==> !ReturnAtLimit(raw) || (a == [] <==> b == [])
  {
    var g := Greedy(StripCR(raw));
    assert |g + [[]]| == |g| + 1 && |g + []| == |g|;
  }

  lemma ReturnIsValid(s: seq<byte>)
    requires Valid(s)
    ensures Valid(s + [CR])
  {
    assert CharLen([CR]) == 1 && [CR][1..] == [];
    ValidConcat(s, [CR]);
  }

  /** A carriage return added to a too-long line does not move its first cut. */
  lemma ReturnCut(s: seq<byte>, cut: nat)
    requires Valid(s) && GreedyCut(s, cut)
    ensures GreedyCut(s + [CR], cut)
  {
    var t := s + [CR];
    ReturnIsValid(s);
    BoundaryIsStart(s, cut);
    forall k | cut < k <= MaxLogLineBytes ensures Tail(t[k]) {
      BoundaryIsStart(s, k);
      assert !Boundary(s, k);
    }
    StartsBound(t, cut);
  }

  lemma ReturnKeepsCut(s: seq<byte>) returns (cut: nat)
    requires Valid(s) && |s| > MaxLogLineBytes
    ensures 0 < cut <= |s| && Valid(s[cut..])
    ensures Greedy(s) == [s[..cut]] + Greedy(s[cut..])
    ensures Greedy(s + [CR]) == [s[..cut]] + Greedy(s[cut..] + [CR])
  {
    hide *;
    cut := LongLineCuts(s);
    ReturnCut(s, cut);
    GreedyCutIs(s + [CR], cut);
    assert (s + [CR])[..cut] == s[..cut] && (s + [CR])[cut..] == s[cut..] + [CR];
  }

  function WithReturn(g: seq<seq<byte>>): seq<seq<byte>>
    requires g != []
  {
    if |g[|g| - 1]| == MaxLogLineBytes then g + [[CR]] else g[..|g| - 1] + [g[|g| - 1] + [CR]]
  }

  lemma WithReturnPrepend(head: seq<byte>, g: seq<seq<byte>>)
    requires g != []
    ensures WithReturn([head] + g) == [head] + WithReturn(g)
  {
  }

  /** A trailing carriage return joins the last record unless that record is full. */
  lemma {:induction false} GreedyReturn(s: seq<byte>)
    requires Valid(s)
    ensures Greedy(s + [CR]) == WithReturn(Greedy(s))
    decreases |s|
  {
    if |s| < MaxLogLineBytes {
    } else if |s| == MaxLogLineBytes {
      var t := s + [CR];
      ReturnIsValid(s);
      ReturnIsValid([]);
      assert t[..|s|] == s && t[|s|..] == [CR] == [] + [CR];
      assert Boundary(t, |s|);
      GreedyCutIs(t, |s|);
    } else {
      var cut := ReturnKeepsCut(s);
      GreedyReturn(s[cut..]);
      WithReturnPrepend(s[..cut], Greedy(s[cut..]));
    }
  }

  // ---------- The scanner ----------

  /** Facts about the unfinished line: its emitted records and what is pending make
      up its bytes, and any valid completion would be split the same way. */
  ghost predicate OnTrack(line: seq<byte>, emitted: seq<seq<byte>>, pending: seq<byte>) {
    && Concat(emitted) + pending == line
    && |pending| <= MaxLogLineBytes
    && (line != [] ==> pending != [])
    && (line == [] ==> emitted == [])
    && AllFit(emitted) && NearlyFull(emitted)
    && (AllResume(line, emitted, pending))
  }

  /** What a finished line's records promise. */
  ghost predicate Recorded(line: Line, records: seq<seq<byte>>) {
    && Concat(records) == StripCR(line.raw)
    && AllFit(records) && FullButLast(records)
    && (Valid(StripCR(line.raw)) ==>
          records == Expected(line) && ValidRecords(records))
  }

  function Flatten(groups: seq<seq<seq<byte>>>): seq<seq<byte>> {
    if groups == [] then [] else Flatten(groups[..|groups| - 1]) + groups[|groups| - 1]
  }

  lemma Regroup(done: seq<byte>, pending: seq<byte>, data: seq<byte>, cut: seq<byte>, pending': seq<byte>)
    requires cut + pending' == pending + data
    ensures done + cut + pending' == done + pending + data
  {
    assert done + cut + pending' == done + (cut + pending');
    assert done + pending + data == done + (pending + data);
  }

  lemma FitAppend(a: seq<seq<byte>>, b: seq<seq<byte>>)
    ensures AllFit(a) && AllFit(b) ==> AllFit(a + b)
    ensures NearlyFull(a) && NearlyFull(b) ==> NearlyFull(a + b)
    ensures ValidRecords(a) && ValidRecords(b) ==> ValidRecords(a + b)
  {
  }

  /** Appending the bytes of one more read, then draining. */
  lemma TrackSlice(line: seq<byte>, emitted: seq<seq<byte>>, pending: seq<byte>, data: seq<byte>,
                   cuts: seq<seq<byte>>, pending': seq<byte>)
    requires OnTrack(line, emitted, pending)
    requires Drained(pending + data, cuts, pending')
    ensures OnTrack(line + data, emitted + cuts, pending')
  {
    ConcatAppend(emitted, cuts);
    Regroup(Concat(emitted), pending, data, Concat(cuts), pending');
    FitAppend(emitted, cuts);
    ResumesMore(line, emitted, pending, data, cuts, pending');
  }

  /** A line that is complete without a carriage return left in the buffer. */
  lemma FinishPlain(line: seq<byte>, emitted: seq<seq<byte>>, pending: seq<byte>)
    requires OnTrack(line, emitted, pending)
    ensures Concat(emitted + [pending]) == line
    ensures AllFit(emitted + [pending]) && FullButLast(emitted + [pending])
    ensures Valid(line) ==> emitted + [pending] == Greedy(line)
  {
    FullFront(emitted, pending);
    ConcatAppend(emitted, [pending]);
    ConcatOne(pending);
    if Valid(line) {
      assert line + [] == line && pending + [] == pending;
      assert Resumes(line, emitted, pending, []);
    }
  }

  lemma LastPending(done: seq<byte>, pending: seq<byte>, line: seq<byte>)
    requires done + pending == line && pending != []
    ensures line != [] && line[|line| - 1] == pending[|pending| - 1]
    ensures done + pending[..|pending| - 1] == line[..|line| - 1]
  {
    assert (done + pending)[|done| + |pending| - 1] == pending[|pending| - 1];
  }

  /** A valid line whose carriage return was buffered by an earlier read. */
  lemma BufferedReturnSplit(body: seq<byte>, emitted: seq<seq<byte>>, pending: seq<byte>)
    requires Valid(body) && pending != [] && OnTrack(body + [CR], emitted, pending)
    ensures var g := Greedy(body);
            emitted + [pending[..|pending| - 1]] == g + if |g[|g| - 1]| == MaxLogLineBytes then [[]] else []
    ensures ValidRecords(emitted + [pending[..|pending| - 1]])
  {
    FinishPlain(body + [CR], emitted, pending);
    ReturnIsValid(body);
    hide Greedy, Valid, OnTrack;
    GreedyReturn(body);
    GreedyValid(body);
    SplitReturn(Greedy(body), emitted, pending);
    FitAppend(Greedy(body), [[]]);
    assert Greedy(body) + [] == Greedy(body);
  }

  lemma ReturnConserved(line: seq<byte>, emitted: seq<seq<byte>>, pending: seq<byte>)
    requires OnTrack(line, emitted, pending) && line != [] && line[|line| - 1] == CR
    ensures pending != [] && pending[|pending| - 1] == CR
    ensures Concat(emitted + [pending[..|pending| - 1]]) == line[..|line| - 1]
    ensures AllFit(emitted + [pending[..|pending| - 1]]) && FullButLast(emitted + [pending[..|pending| - 1]])
  {
    hide AllResume;
    FullFront(emitted, pending[..|pending| - 1]);
    var kept := pending[..|pending| - 1];
    LastPending(Concat(emitted), pending, line);
    ConcatAppend(emitted, [kept]);
    ConcatOne(kept);
    FitAppend(emitted, [kept]);
  }

  lemma FinishBufferedReturn(line: seq<byte>, emitted: seq<seq<byte>>, pending: seq<byte>)
    requires OnTrack(line, emitted, pending) && line != [] && line[|line| - 1] == CR
    ensures pending != [] && pending[|pending| - 1] == CR
    ensures Recorded(Line(line, []), emitted + [pending[..|pending| - 1]])
  {
    hide OnTrack, AllFit, FullButLast, Concat, ValidRecords, Valid;
    var body := StripCR(line);
    assert line == body + [CR];
    ReturnConserved(line, emitted, pending);
    if Valid(body) {
      BufferedReturnSplit(body, emitted, pending);
    }
  }

  /** Reads the records before the carriage return was removed back to the split of
      the line without it. */
  lemma SplitReturn(g: seq<seq<byte>>, emitted: seq<seq<byte>>, pending: seq<byte>)
    requires g != [] && pending != []
    requires emitted + [pending] == WithReturn(g)
    ensures emitted + [pending[..|pending| - 1]] ==
            g + if |g[|g| - 1]| == MaxLogLineBytes then [[]] else []
  {
    var h := emitted + [pending];
    assert h[|h| - 1] == pending && h[..|h| - 1] == emitted;
    var kept := pending[..|pending| - 1];
    if |g[|g| - 1]| == MaxLogLineBytes {
      assert (g + [[CR]])[..|g|] == g;
      assert kept == [];
    } else {
      assert g[|g| - 1] + [CR] == pending;
      assert kept == g[|g| - 1] && emitted == g[..|g| - 1];
      assert g + [] == g == g[..|g| - 1] + [g[|g| - 1]];
    }
  }

  /** Ends a line whose last read brought data. */
  lemma FinishFresh(raw: seq<byte>, data: seq<byte>, emitted: seq<seq<byte>>, pending: seq<byte>)
    requires OnTrack(StripCR(raw), emitted, pending)
    requires raw != [] && raw[|raw| - 1] == CR ==> data != []
    ensures Recorded(Line(raw, data), emitted + [pending])
  {
    var body := StripCR(raw);
    FinishPlain(body, emitted, pending);
    if Valid(body) {
      GreedyValid(body);
      assert Expected(Line(raw, data)) == Greedy(body) + [];
    }
  }

  /** The buffer after the optional removal of a carriage return. */
  function Trimmed(pending: seq<byte>, terminated: bool): seq<byte> {
    if terminated then StripCR(pending) else pending
  }

  lemma TrimmedIs(pending: seq<byte>, terminated: bool)
    ensures Trimmed(pending, terminated) ==
            if terminated && |pending| > 0 && pending[|pending| - 1] == CR then pending[..|pending| - 1] else pending
    ensures Trimmed(pending, terminated) == if terminated then StripCR(pending) else pending
  {
  }

  /** Only the last part of a line decides about its carriage return. */
  lemma StripAppended(head: seq<byte>, data: seq<byte>)
    requires data != []
    ensures StripCR(head + data) == head + StripCR(data)
    ensures (head + data)[|head + data| - 1] == data[|data| - 1]
  {
  }

  /** One iteration of the reading loop, seen from the line it works on. */
  lemma ReadStep(line: seq<byte>, emitted: seq<seq<byte>>, before: seq<byte>, data: seq<byte>, terminated: bool,
                 cuts: seq<seq<byte>>, pending: seq<byte>)
    requires OnTrack(line, emitted, before)
    requires Drained(Trimmed(before + data, terminated), cuts, pending)
    ensures !terminated ==> OnTrack(line + data, emitted + cuts, pending)
    ensures terminated ==> Recorded(Line(line + data, data), emitted + cuts + [pending])
    ensures line + data != [] <==> before + data != []
  {
    assert line + data != [] <==> before + data != [];
    TrimmedIs(before + data, terminated);
    hide *;
    if !terminated {
      TrackSlice(line, emitted, before, data, cuts, pending);
    } else if data == [] {
      assert before + data == before && line + data == line;
      EmptyRead(line, emitted, before, cuts, pending);
    } else {
      var added := StripCR(data);
      StripAppended(before, data);
      StripAppended(line, data);
      StripAppended([], data);
      TrackSlice(line, emitted, before, added, cuts, pending);
      FinishFresh(line + data, data, emitted + cuts, pending);
    }
  }

  /** The line ends with a read that brings no data. */
  lemma EmptyRead(line: seq<byte>, emitted: seq<seq<byte>>, before: seq<byte>, cuts: seq<seq<byte>>, pending: seq<byte>)
    requires OnTrack(line, emitted, before)
    requires Drained(StripCR(before), cuts, pending)
    ensures Recorded(Line(line, []), emitted + cuts + [pending])
  {
    assert cuts == [] && Concat(cuts) == [];
    assert pending == StripCR(before);
    assert emitted + cuts + [pending] == emitted + [StripCR(before)];
    if line != [] && line[|line| - 1] == CR {
      FinishBufferedReturn(line, emitted, before);
    } else {
      if before != [] { LastPending(Concat(emitted), before, line); }
      FinishFresh(line, [], emitted, before);
    }
  }

  lemma LinesStep(slices: seq<Slice>, k: nat)
    requires k < |slices|
    ensures var slice := slices[k];
            var raw := OpenLine(slices, k) + slice.data;
            && OpenLine(slices, k + 1) == (if slice.ending.BufferFull? then raw else [])
            && Lines(slices, k + 1) == Lines(slices, k)
               + if slice.ending.Delimiter? || (!slice.ending.BufferFull? && raw != []) then [Line(raw, slice.data)] else []
  {
  }

  ghost predicate AllRecorded(lines: seq<Line>, perLine: seq<seq<seq<byte>>>) {
    && |perLine| == |lines|
    && forall i :: 0 <= i < |lines| ==> Recorded(lines[i], perLine[i])
  }

  lemma FlattenSnoc(perLine: seq<seq<seq<byte>>>, group: seq<seq<byte>>)
    ensures Flatten(perLine + [group]) == Flatten(perLine) + group
  {
    assert (perLine + [group])[..|perLine|] == perLine;
  }

  /** Where the reading loop stands: completed lines are recorded, the open one is
      on track. */
  ghost predicate Progress(lines: seq<Line>, open: seq<byte>, records: seq<seq<byte>>,
                           perLine: seq<seq<seq<byte>>>, emitted: seq<seq<byte>>, pending: seq<byte>) {
    && records == Flatten(perLine) + emitted
    && AllRecorded(lines, perLine)
    && OnTrack(open, emitted, pending)
  }

  lemma EmptyOnTrack()
    ensures OnTrack([], [], [])
  {
    ResumesStart([]);
  }

  lemma Associate<T>(a: seq<T>, b: seq<T>, c: seq<T>, d: seq<T>)
    ensures a + b + c + d == a + (b + c + d)
    ensures a + [] == a
  {
  }

  lemma FlattenGroup(records: seq<seq<byte>>, perLine: seq<seq<seq<byte>>>,
                     emitted: seq<seq<byte>>, cuts: seq<seq<byte>>, pending: seq<byte>)
    requires records == Flatten(perLine) + emitted
    ensures records + cuts + [pending] == Flatten(perLine + [emitted + cuts + [pending]]) + []
  {
    FlattenSnoc(perLine, emitted + cuts + [pending]);
    Associate(Flatten(perLine), emitted, cuts, [pending]);
    Associate(Flatten(perLine + [emitted + cuts + [pending]]), [], [], []);
  }

  lemma RecordedSnoc(lines: seq<Line>, perLine: seq<seq<seq<byte>>>, line: Line, group: seq<seq<byte>>)
    requires AllRecorded(lines, perLine) && Recorded(line, group)
    ensures AllRecorded(lines + [line], perLine + [group])
  {
  }

  lemma CompleteLine(lines: seq<Line>, records: seq<seq<byte>>, perLine: seq<seq<seq<byte>>>,
                     emitted: seq<seq<byte>>, cuts: seq<seq<byte>>, pending: seq<byte>, line: Line)
    requires records == Flatten(perLine) + emitted && AllRecorded(lines, perLine)
    requires Recorded(line, emitted + cuts + [pending])
    ensures Progress(lines + [line], [], records + cuts + [pending], perLine + [emitted + cuts + [pending]], [], [])
  {
    var group := emitted + cuts + [pending];
    assert AllRecorded(lines + [line], perLine + [group]) by { RecordedSnoc(lines, perLine, line, group); }
    FlattenGroup(records, perLine, emitted, cuts, pending);
    assert OnTrack([], [], []) by { EmptyOnTrack(); }
  }

  lemma ExtendLine(lines: seq<Line>, open: seq<byte>, records: seq<seq<byte>>, perLine: seq<seq<seq<byte>>>,
                   emitted: seq<seq<byte>>, before: seq<byte>, data: seq<byte>, cuts: seq<seq<byte>>, pending: seq<byte>)
    requires Progress(lines, open, records, perLine, emitted, before)
    requires OnTrack(open + data, emitted + cuts, pending)
    ensures Progress(lines, open + data, records + cuts, perLine, emitted + cuts, pending)
  {
    Associate(Flatten(perLine), emitted, cuts, []);
    Associate(emitted + cuts, [], [], []);
    Associate(records + cuts, [], [], []);
  }

  /** The stream ends right after a newline, or was empty. */
  lemma NothingLeft(lines: seq<Line>, open: seq<byte>, records: seq<seq<byte>>, perLine: seq<seq<seq<byte>>>,
                    emitted: seq<seq<byte>>, before: seq<byte>, data: seq<byte>)
    requires Progress(lines, open, records, perLine, emitted, before) && before + data == []
    ensures open + data == [] && records == Flatten(perLine) && AllRecorded(lines, perLine)
  {
    assert open == [] && emitted == [];
    Associate(Flatten(perLine), [], [], []);
  }

  ghost predicate Standing(slices: seq<Slice>, k: nat, records: seq<seq<byte>>, perLine: seq<seq<seq<byte>>>,
                           emitted: seq<seq<byte>>, pending: seq<byte>)
  {
    k <= |slices| && Progress(Lines(slices, k), OpenLine(slices, k), records, perLine, emitted, pending)
  }

  lemma AfterRead(slices: seq<Slice>, k: nat, records: seq<seq<byte>>, perLine: seq<seq<seq<byte>>>,
                  emitted: seq<seq<byte>>, before: seq<byte>, cuts: seq<seq<byte>>, pending: seq<byte>)
    requires k < |slices| && Standing(slices, k, records, perLine, emitted, before)
    requires Drained(Trimmed(before + slices[k].data, !slices[k].ending.BufferFull?), cuts, pending)
    ensures slices[k].ending.BufferFull? ==>
              Standing(slices, k + 1, records + cuts, perLine, emitted + cuts, pending)
    ensures slices[k].ending.Delimiter? || (!slices[k].ending.BufferFull? && before + slices[k].data != []) ==>
              Standing(slices, k + 1, records + cuts + [pending], perLine + [emitted + cuts + [pending]], [], [])
    ensures !slices[k].ending.Delimiter? && !slices[k].ending.BufferFull? && before + slices[k].data == [] ==>
              && AllRecorded(Lines(slices, k + 1), perLine)
              && cuts == [] && records + cuts == Flatten(perLine)
  {
    var lines, open, slice := Lines(slices, k), OpenLine(slices, k), slices[k];
    LinesStep(slices, k);
    ReadStep(open, emitted, before, slice.data, !slice.ending.BufferFull?, cuts, pending);
    if slice.ending.BufferFull? {
      ExtendLine(lines, open, records, perLine, emitted, before, slice.data, cuts, pending);
    } else if slice.ending.Delimiter? || before + slice.data != [] {
      CompleteLine(lines, records, perLine, emitted, cuts, pending, Line(open + slice.data, slice.data));
    } else {
      NothingLeft(lines, open, records, perLine, emitted, before, slice.data);
      Associate(records, [], [], []);
    }
  }

  lemma AtEnd(slices: seq<Slice>, records: seq<seq<byte>>, perLine: seq<seq<seq<byte>>>, pending: seq<byte>)
    requires Standing(slices, |slices|, records, perLine, [], pending)
    ensures AllRecorded(Lines(slices, |slices|), perLine) && records == Flatten(perLine)
  {
    Associate(Flatten(perLine), [], [], []);
  }

  lemma BeginScan(slices: seq<Slice>)
    ensures Standing(slices, 0, [], [], [], [])
  {
    EmptyOnTrack();
  }

  lemma EndsAtLast(slices: seq<Slice>, k: nat)
    requires Readable(slices) && (k < |slices| || k == 0)
    ensures k < |slices|
    ensures !slices[k].ending.Delimiter? && !slices[k].ending.BufferFull? <==> k == |slices| - 1
  {
  }

  /** Buffers the bytes of one read and drops the carriage return of a finished line. */
  method AppendPart(pending0: seq<byte>, part: seq<byte>, terminated: bool)
    returns (hasContent: bool, pending: seq<byte>)
    ensures hasContent <==> pending0 + part != []
    ensures pending == Trimmed(pending0 + part, terminated)
  {
    pending := pending0 + part;
    hasContent := |pending| > 0;
    if terminated && |pending| > 0 && pending[|pending| - 1] == CR {
      pending := pending[..|pending| - 1];
    }
  }

  method ScanLines(slices: seq<Slice>)
    returns (records: seq<seq<byte>>, failed: bool, ghost perLine: seq<seq<seq<byte>>>)
    requires Readable(slices)
    ensures failed <==> slices[|slices| - 1].ending.ReadFailure?
    ensures records == Flatten(perLine)
    ensures AllRecorded(Lines(slices, |slices|), perLine)
  {
    hide *;
    records, perLine := [], [];
    var pending: seq<byte> := [];
    ghost var emitted: seq<seq<byte>> := [];
    var k := 0;
    BeginScan(slices);
    EndsAtLast(slices, 0);
    while true
      invariant 0 <= k < |slices|
      invariant Standing(slices, k, records, perLine, emitted, pending)
      decreases |slices| - k
    {
      var slice := slices[k];
      var endOfLine := slice.ending.Delimiter?;
      var endOfRead := !endOfLine && !slice.ending.BufferFull?;
      ghost var before := pending;
      EndsAtLast(slices, k);
      var hasContent, cuts;
      hasContent, pending := AppendPart(pending, slice.data, endOfLine || endOfRead);
      cuts, pending := DrainLong(pending);
      AfterRead(slices, k, records, perLine, emitted, before, cuts, pending);
      records := records + cuts;
      if endOfLine || (endOfRead && hasContent) {
        records := records + [pending];
        perLine := perLine + [emitted + cuts + [pending]];
        emitted, pending := [], [];
      } else {
        emitted := emitted + cuts;
      }
      if endOfRead {
        if hasContent { AtEnd(slices, records, perLine, pending); }
        return records, slice.ending.ReadFailure?, perLine;
      }
      k := k + 1;
    }
  }

  // ---------- Independence of the slicing ----------

  /** The bytes that were read, newlines included. */
  function Stream(slices: seq<Slice>, k: nat): seq<byte>
    requires k <= |slices|
  {
    if k == 0 then []
    else Stream(slices, k - 1) + slices[k - 1].data + if slices[k - 1].ending.Delimiter? then [LF] else []
  }

  /** The bytes after the last newline. */
  function Rest(text: seq<byte>): seq<byte> {
    if text == [] || text[|text| - 1] == LF then [] else Rest(text[..|text| - 1]) + [text[|text| - 1]]
  }

  /** The lines that end in a newline. */
  function Terminated(text: seq<byte>): seq<seq<byte>> {
    if text == [] then []
    else
      var front := text[..|text| - 1];
      if text[|text| - 1] == LF then Terminated(front) + [Rest(front)] else Terminated(front)
  }

  /** The lines of a text; a final line without a newline counts when it has content. */
  function TextLines(text: seq<byte>): seq<seq<byte>> {
    Terminated(text) + if Rest(text) != [] then [Rest(text)] else []
  }

  function Raws(lines: seq<Line>): seq<seq<byte>> {
    seq(|lines|, i requires 0 <= i < |lines| => lines[i].raw)
  }

  lemma {:induction false} TextAppend(text: seq<byte>, data: seq<byte>)
    requires LF !in data
    ensures Rest(text + data) == Rest(text) + data && Terminated(text + data) == Terminated(text)
    decreases |data|
  {
    if data == [] {
      assert text + data == text;
    } else {
      var front, last := data[..|data| - 1], data[|data| - 1];
      assert data == front + [last] && last in data;
      assert (text + data)[..|text + data| - 1] == text + front;
      TextAppend(text, front);
    }
  }

  lemma TextNewline(text: seq<byte>)
    ensures Rest(text + [LF]) == [] && Terminated(text + [LF]) == Terminated(text) + [Rest(text)]
  {
    assert (text + [LF])[..|text|] == text;
  }

  lemma {:induction false} LinesAreTextLines(slices: seq<Slice>, k: nat)
    requires Readable(slices) && k < |slices|
    ensures OpenLine(slices, k) == Rest(Stream(slices, k))
    ensures Raws(Lines(slices, k)) == Terminated(Stream(slices, k))
  {
    if k > 0 {
      LinesAreTextLines(slices, k - 1);
      var slice, text := slices[k - 1], Stream(slices, k - 1);
      TextAppend(text, slice.data);
      if slice.ending.Delimiter? {
        TextNewline(text + slice.data);
      } else {
        assert Stream(slices, k) == text + slice.data;
      }
    }
  }

  /** However the stream was divided into reads, its logical lines are those of its text. */
  lemma StreamLines(slices: seq<Slice>)
    requires Readable(slices)
    ensures Raws(Lines(slices, |slices|)) == TextLines(Stream(slices, |slices|))
  {
    var k := |slices| - 1;
    LinesAreTextLines(slices, k);
    TextAppend(Stream(slices, k), slices[k].data);
    assert Stream(slices, |slices|) == Stream(slices, k) + slices[k].data;
  }

  /** The two arrivals of a line agree on whether a read ended just before the newline, or it
      does not matter. */
  predicate SameArrival(a: Line, b: Line) {
    !ReturnAtLimit(a.raw) || (a.last == [] <==> b.last == [])
  }

  lemma SameLines(a: seq<Slice>, b: seq<Slice>)
    requires Readable(a) && Readable(b) && Stream(a, |a|) == Stream(b, |b|)
    ensures |Lines(a, |a|)| == |Lines(b, |b|)|
    ensures forall i :: 0 <= i < |Lines(a, |a|)| ==>
      Lines(a, |a|)[i].raw == Lines(b, |b|)[i].raw && Lines(a, |a|)[i].raw in TextLines(Stream(a, |a|))
  {
    StreamLines(a);
    StreamLines(b);
    var la, lb := Lines(a, |a|), Lines(b, |b|);
    assert |Raws(la)| == |la| && |Raws(lb)| == |lb|;
    forall i | 0 <= i < |la| ensures la[i].raw == lb[i].raw && la[i].raw in TextLines(Stream(a, |a|)) {
      assert Raws(la)[i] == la[i].raw && Raws(lb)[i] == lb[i].raw;
    }
  }

  /** Two readings of the same valid text record the same exactly when no line whose
      carriage return falls on the limit arrived with a read boundary before its newline
      in one of them only. */
  lemma {:induction false} SlicingIndependent(a: seq<Slice>, b: seq<Slice>, pa: seq<seq<seq<byte>>>, pb: seq<seq<seq<byte>>>)
    requires Readable(a) && Readable(b) && Stream(a, |a|) == Stream(b, |b|)
    requires AllRecorded(Lines(a, |a|), pa) && AllRecorded(Lines(b, |b|), pb)
    requires forall raw :: raw in TextLines(Stream(a, |a|)) ==> Valid(StripCR(raw))
    ensures |pa| == |pb| == |Lines(a, |a|)| == |Lines(b, |b|)|
    ensures pa == pb <==> forall i :: 0 <= i < |pa| ==> SameArrival(Lines(a, |a|)[i], Lines(b, |b|)[i])
  {
    SameLines(a, b);
    var la, lb := Lines(a, |a|), Lines(b, |b|);
    forall i | 0 <= i < |pa| ensures pa[i] == pb[i] <==> SameArrival(la[i], lb[i]) {
      assert la[i].raw in TextLines(Stream(a, |a|));
      assert Recorded(la[i], pa[i]) && Recorded(lb[i], pb[i]);
      SlicingMatters(la[i].raw, la[i].last, lb[i].last);
    }
  }

  // ---------- Readings through the program's buffer ----------

  const ReadBuffer := 64 * 1024

  /** What a reader with that buffer returns when its file delivers no bytes together with an
      error: it cuts a line only when its buffer is full. */
  ghost predicate Buffered(slices: seq<Slice>) {
    forall i :: 0 <= i < |slices| ==>
      if slices[i].ending.BufferFull? then |slices[i].data| == ReadBuffer else |slices[i].data| < ReadBuffer
  }

  lemma FullPieces(a: nat)
    ensures (a + ReadBuffer) % ReadBuffer == a % ReadBuffer
  {
  }

  /** An unfinished line is a whole number of full buffers. */
  lemma {:induction false} OpenAligned(slices: seq<Slice>, k: nat)
    requires Buffered(slices) && k <= |slices|
    ensures |OpenLine(slices, k)| % ReadBuffer == 0
  {
    if k > 0 && slices[k - 1].ending.BufferFull? {
      OpenAligned(slices, k - 1);
      FullPieces(|OpenLine(slices, k - 1)|);
    }
  }

  /** A read ends just before the newline exactly when the line is a whole number of buffers. */
  predicate Aligned(line: Line) {
    line.last == [] <==> |line.raw| % ReadBuffer == 0
  }

  lemma {:induction false} LinesAligned(slices: seq<Slice>, k: nat, i: nat)
    requires Buffered(slices) && k <= |slices| && i < |Lines(slices, k)|
    ensures Aligned(Lines(slices, k)[i])
  {
    if i < |Lines(slices, k - 1)| {
      LinesAligned(slices, k - 1, i);
    } else {
      var open, data := OpenLine(slices, k - 1), slices[k - 1].data;
      OpenAligned(slices, k - 1);
      assert !slices[k - 1].ending.BufferFull?;
      assert Lines(slices, k)[i] == Line(open + data, data);
      SumModulo(|open|, |data|);
    }
  }

  lemma SumModulo(a: nat, b: nat)
    requires a % ReadBuffer == 0 && b < ReadBuffer
    ensures (a + b) % ReadBuffer == b
  {
  }

  /** Read through the buffer, a valid line is recorded as its greedy split, except when it ends
      in a carriage return, its last record is exactly full, and its length is a multiple of
      the buffer: then one empty record more is emitted. */
  lemma BufferedRecords(slices: seq<Slice>, records: seq<seq<seq<byte>>>, i: nat)
    requires Buffered(slices) && AllRecorded(Lines(slices, |slices|), records)
    requires i < |records| && Valid(StripCR(Lines(slices, |slices|)[i].raw))
    ensures var raw := Lines(slices, |slices|)[i].raw;
            && (records[i] == Greedy(StripCR(raw)) <==> !(ReturnAtLimit(raw) && |raw| % ReadBuffer == 0))
            && (ReturnAtLimit(raw) && |raw| % ReadBuffer == 0 ==> records[i] == Greedy(StripCR(raw)) + [[]])
  {
    hide Lines, Greedy, Valid, StripCR, ReturnAtLimit;
    var line := Lines(slices, |slices|)[i];
    LinesAligned(slices, |slices|, i);
    assert Recorded(line, records[i]);
    var g := Greedy(StripCR(line.raw));
    assert g + [] == g && |g + [[]]| == |g| + 1;
  }

  // The text alone decides where the reads end.

  /** The bytes of the text a slice stands for. */
  function Arrived(slice: Slice): seq<byte> {
    slice.data + if slice.ending.Delimiter? then [LF] else []
  }

  predicate Last(slice: Slice) {
    slice.ending.EndOfFile? || slice.ending.ReadFailure?
  }

  /** What one read says about itself and the text after it. */
  predicate Sliced(slice: Slice, after: seq<byte>) {
    && LF !in slice.data
    && (if slice.ending.BufferFull? then |slice.data| == ReadBuffer else |slice.data| < ReadBuffer)
    && (Last(slice) ==> after == [])
  }

  lemma NotShorter(a: Slice, b: Slice, at: seq<byte>, bt: seq<byte>)
    requires Sliced(a, at) && Sliced(b, bt) && Arrived(a) + at == Arrived(b) + bt
    ensures |a.data| >= |b.data|
  {
    var text := Arrived(a) + at;
    assert b.data == text[..|b.data|];
    assert forall i :: 0 <= i < |b.data| ==> text[i] == b.data[i] != LF;
    assert a.ending.Delimiter? ==> text[|a.data|] == LF;
  }

  /** Two reads that begin at the same place of the same text. */
  lemma SameSlice(a: Slice, b: Slice, at: seq<byte>, bt: seq<byte>)
    requires Sliced(a, at) && Sliced(b, bt) && Arrived(a) + at == Arrived(b) + bt
    ensures Alike(a, b) && at == bt
  {
    NotShorter(a, b, at, bt);
    NotShorter(b, a, bt, at);
    var text := Arrived(a) + at;
    assert a.data == text[..|a.data|] && b.data == text[..|b.data|];
    assert at == text[|Arrived(a)|..] && bt == text[|Arrived(b)|..];
    assert a.ending.Delimiter? ==> |text| > |a.data|;
    assert b.ending.Delimiter? ==> |text| > |b.data|;
  }

  /** The same read, or the same end of the text. */
  predicate Alike(a: Slice, b: Slice) {
    a.data == b.data && (a.ending == b.ending || (Last(a) && Last(b)))
  }

  ghost predicate SameReads(a: seq<Slice>, b: seq<Slice>) {
    |a| == |b| && forall i :: 0 <= i < |a| ==> Alike(a[i], b[i])
  }

  /** The text after the first k slices. */
  function After(slices: seq<Slice>, k: nat): seq<byte>
    requires k <= |slices|
    decreases |slices| - k
  {
    if k == |slices| then [] else Arrived(slices[k]) + After(slices, k + 1)
  }

  lemma {:induction false} StreamAfter(slices: seq<Slice>, k: nat)
    requires k <= |slices|
    ensures Stream(slices, |slices|) == Stream(slices, k) + After(slices, k)
    decreases |slices| - k
  {
    if k < |slices| {
      StreamAfter(slices, k + 1);
      assert Stream(slices, k + 1) == Stream(slices, k) + Arrived(slices[k]);
    }
  }

  lemma SliceAt(slices: seq<Slice>, k: nat)
    requires Readable(slices) && Buffered(slices) && k < |slices|
    ensures Sliced(slices[k], After(slices, k + 1)) && (Last(slices[k]) <==> k == |slices| - 1)
  {
  }

  lemma {:induction false} SameFrom(a: seq<Slice>, b: seq<Slice>, k: nat)
    requires Readable(a) && Buffered(a) && Readable(b) && Buffered(b)
    requires k < |a| && k < |b| && After(a, k) == After(b, k)
    ensures |a| == |b| && forall i :: k <= i < |a| ==> Alike(a[i], b[i])
    decreases |a| - k
  {
    hide Readable, Buffered;
    SliceAt(a, k);
    SliceAt(b, k);
    SameSlice(a[k], b[k], After(a, k + 1), After(b, k + 1));
    if k + 1 < |a| {
      SameFrom(a, b, k + 1);
    }
  }

  lemma {:induction false} ReadsGiveLines(a: seq<Slice>, b: seq<Slice>, k: nat)
    requires SameReads(a, b) && k <= |a|
    ensures OpenLine(a, k) == OpenLine(b, k) && Lines(a, k) == Lines(b, k)
  {
    if k > 0 {
      ReadsGiveLines(a, b, k - 1);
      assert Alike(a[k - 1], b[k - 1]);
    }
  }

  /** Two readings of the same text through the buffer consist of the same reads. */
  lemma BufferedReads(a: seq<Slice>, b: seq<Slice>)
    requires Readable(a) && Buffered(a) && Readable(b) && Buffered(b) && Stream(a, |a|) == Stream(b, |b|)
    ensures SameReads(a, b) && Lines(a, |a|) == Lines(b, |b|)
  {
    hide *;
    FirstSlice(a);
    FirstSlice(b);
    SameFrom(a, b, 0);
    MakeReads(a, b);
    ReadsGiveLines(a, b, |a|);
  }

  /** And so, when the text is valid, they record the same. */
  lemma BufferedAgree(a: seq<Slice>, b: seq<Slice>, pa: seq<seq<seq<byte>>>, pb: seq<seq<seq<byte>>>)
    requires Readable(a) && Buffered(a) && Readable(b) && Buffered(b) && Stream(a, |a|) == Stream(b, |b|)
    requires AllRecorded(Lines(a, |a|), pa) && AllRecorded(Lines(b, |b|), pb)
    requires forall raw :: raw in TextLines(Stream(a, |a|)) ==> Valid(StripCR(raw))
    ensures pa == pb
  {
    hide Readable, Buffered, AllRecorded, Valid, StripCR, Stream, Lines, TextLines, ReturnAtLimit;
    BufferedReads(a, b);
    SlicingIndependent(a, b, pa, pb);
  }

  lemma FirstSlice(slices: seq<Slice>)
    requires Readable(slices)
    ensures 0 < |slices| && After(slices, 0) == Stream(slices, |slices|)
  {
    hide After;
    StreamAfter(slices, 0);
    assert Stream(slices, 0) + After(slices, 0) == After(slices, 0);
  }

  lemma MakeReads(a: seq<Slice>, b: seq<Slice>)
    requires |a| == |b| && forall i :: 0 <= i < |a| ==> Alike(a[i], b[i])
    ensures SameReads(a, b)
  {
  }

  // ---------- A text that shows it ----------

  function Letters(n: nat): seq<byte> {
    seq(n, _ => 97)
  }

  lemma {:induction false} LettersValid(n: nat)
    ensures Valid(Letters(n))
  {
    if n > 0 {
      LettersValid(n - 1);
      assert Letters(n)[1..] == Letters(n - 1);
    }
  }

  /** A line whose first record ends one byte early, before a character of two bytes, and
      whose second record is exactly full. */
  function Body(): seq<byte> {
    Letters(MaxLogLineBytes - 1) + [0xC3, 0xA9] + Letters(MaxLogLineBytes - 2)
  }

  lemma BodyParts()
    ensures |Body()| == 2 * MaxLogLineBytes - 1 && Body()[MaxLogLineBytes] == 0xA9
    ensures Body()[..MaxLogLineBytes - 1] == Letters(MaxLogLineBytes - 1)
    ensures Body()[MaxLogLineBytes - 1..] == [0xC3, 0xA9] + Letters(MaxLogLineBytes - 2)
    ensures Body() == Letters(MaxLogLineBytes - 1) + ([0xC3, 0xA9] + Letters(MaxLogLineBytes - 2))
    ensures CR !in Body() && LF !in Body()
  {
  }

  lemma AccentValid()
    ensures Valid([0xC3, 0xA9])
  {
    var c: seq<byte> := [0xC3, 0xA9];
    assert CharLen(c) == 2 && c[2..] == [];
  }

  /** The split of that line. */
  lemma BodySplit()
    ensures Valid(Body())
    ensures Greedy(Body()) == [Letters(MaxLogLineBytes - 1), [0xC3, 0xA9] + Letters(MaxLogLineBytes - 2)]
  {
    hide Greedy, Valid, CharLen, Body, Letters;
    var cut, tail := MaxLogLineBytes - 1, [0xC3, 0xA9] + Letters(MaxLogLineBytes - 2);
    BodyParts();
    LettersValid(MaxLogLineBytes - 1);
    LettersValid(MaxLogLineBytes - 2);
    AccentValid();
    ValidConcat([0xC3, 0xA9], Letters(MaxLogLineBytes - 2));
    ValidConcat(Letters(MaxLogLineBytes - 1), tail);
    BoundaryIsStart(Body(), MaxLogLineBytes);
    GreedyCutIs(Body(), cut);
    ShortLine(tail);
  }

  function Raw(): (raw: seq<byte>)
    ensures |raw| == 32 * ReadBuffer
  {
    Body() + [CR]
  }

  /** The line in pieces of a full buffer: its carriage return ends the last one. */
  function Pieces(k: nat): seq<Slice>
    requires k * ReadBuffer <= |Raw()|
  {
    seq(k, i requires 0 <= i < k => Slice(Raw()[i * ReadBuffer..(i + 1) * ReadBuffer], BufferFull))
  }

  lemma RawParts()
    ensures LF !in Raw() && Raw() != []
    ensures StripCR(Raw()) == Body() && Raw()[|Raw()| - 1] == CR
    ensures ReturnAtLimit(Raw()) && Valid(StripCR(Raw()))
  {
    hide Greedy, Valid, Body, Letters;
    BodyParts();
    BodySplit();
    LettersLength(MaxLogLineBytes - 2);
    assert Raw()[..|Raw()| - 1] == Body();
  }

  lemma LettersLength(n: nat)
    ensures |Letters(n)| == n
  {
  }

  /** The text as it is read through the buffer. */
  function Chunked(): seq<Slice> {
    Pieces(32) + [Slice([], Delimiter), Slice([], EndOfFile)]
  }

  lemma {:induction false} PiecesOpen(k: nat)
    requires k <= 32
    ensures OpenLine(Chunked(), k) == Raw()[..k * ReadBuffer] == Stream(Chunked(), k) && Lines(Chunked(), k) == []
  {
    hide Raw;
    if k > 0 {
      PiecesOpen(k - 1);
      var slice := Chunked()[k - 1];
      assert slice == Slice(Raw()[(k - 1) * ReadBuffer..k * ReadBuffer], BufferFull);
      assert Raw()[..k * ReadBuffer] == Raw()[..(k - 1) * ReadBuffer] + slice.data;
    }
  }

  lemma NewlineArrives(slices: seq<Slice>, k: nat)
    requires k < |slices| && slices[k].ending.Delimiter?
    ensures Lines(slices, k + 1) == Lines(slices, k) + [Line(OpenLine(slices, k) + slices[k].data, slices[k].data)]
    ensures OpenLine(slices, k + 1) == [] && Stream(slices, k + 1) == Stream(slices, k) + (slices[k].data + [LF])
  {
  }

  lemma NothingArrives(slices: seq<Slice>, k: nat)
    requires k < |slices| && slices[k] == Slice([], EndOfFile) && OpenLine(slices, k) == []
    ensures Lines(slices, k + 1) == Lines(slices, k) && Stream(slices, k + 1) == Stream(slices, k)
  {
  }

  lemma ChunkedIsReadable()
    requires LF !in Raw()
    ensures Readable(Chunked()) && Buffered(Chunked())
  {
    hide Raw;
    var c := Chunked();
    forall i | 0 <= i < 32 ensures c[i] == Slice(Raw()[i * ReadBuffer..(i + 1) * ReadBuffer], BufferFull) && LF !in c[i].data {
    }
  }

  lemma ChunkedReads()
    ensures Readable(Chunked()) && Buffered(Chunked())
    ensures Lines(Chunked(), |Chunked()|) == [Line(Raw(), [])]
    ensures Stream(Chunked(), |Chunked()|) == Raw() + [LF]
  {
    hide Raw, Lines, OpenLine, Stream, Readable, Buffered, StripCR, Valid, ReturnAtLimit;
    RawParts();
    ChunkedIsReadable();
    PiecesOpen(32);
    var c := Chunked();
    assert |c| == 34 && c[32] == Slice([], Delimiter) && c[33] == Slice([], EndOfFile);
    assert Raw()[..32 * ReadBuffer] == Raw() && Raw() + [] == Raw() && [] + [LF] == [LF];
    NewlineArrives(c, 32);
    NothingArrives(c, 33);
  }

  lemma OneLine(line: Line, perLine: seq<seq<seq<byte>>>)
    requires AllRecorded([line], perLine) && Valid(StripCR(line.raw))
    ensures perLine == [Expected(line)]
  {
    assert Recorded([line][0], perLine[0]);
  }

  /** That text is recorded with an empty record more than its greedy split. */
  lemma ReadShows(records: seq<seq<seq<byte>>>)
    requires AllRecorded(Lines(Chunked(), |Chunked()|), records)
    ensures Readable(Chunked()) && Buffered(Chunked()) && Valid(StripCR(Raw()))
    ensures Stream(Chunked(), |Chunked()|) == Raw() + [LF]
    ensures records == [Greedy(Body()) + [[]]] && records != [Greedy(Body())]
  {
    hide Raw, Chunked, StripCR, Valid, ReturnAtLimit, Greedy, AllRecorded;
    RawParts();
    ChunkedReads();
    OneLine(Line(Raw(), []), records);
    assert |Greedy(Body()) + [[]]| == |Greedy(Body())| + 1;
  }
}
