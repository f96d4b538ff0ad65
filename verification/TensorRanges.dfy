/** The safetensors range check of `ditto_screener/binary_analysis.py`: one sweep
    over the tensor ranges in sorted order. */
module TensorRanges {
  import opened Options
  import opened Text
  import opened Permutations

  const MAX_HEADER_BYTES := 8 * 1024 * 1024
  const MAX_SAMPLED := 64
  const NAME_BYTES := 160

  /** A JSON header entry: not a tensor at all, a tensor whose `data_offsets` is not a
      pair of integers, or a tensor with a pair of integers. The record stands for the
      tensor's JSON object: equal records are equal objects. */
  datatype Entry = Skipped | Malformed | Offsets(name: string, start: int, end: int, record: string)

  /** A candidate: its range, the first characters of its name, and its record. */
  datatype Range = Range(start: nat, end: nat, name: string, record: string)

  datatype Sampled = Sampled(name: string, record: string, bytes: nat)

  datatype Details = Details(
    tensorCount: nat, sampled: seq<Sampled>, tensorBytes: nat, invalidRanges: nat, payloadAvailable: bool)

  // ----- specification ----------------------------------------------------------------

  predicate Valid(entry: Entry, payload: nat) {
    entry.Offsets? && 0 <= entry.start <= entry.end <= payload
  }

  function Prefix(name: string): string {
    if |name| > NAME_BYTES then name[..NAME_BYTES] else name
  }

  function RangeOf(entry: Entry): Range
    requires entry.Offsets? && 0 <= entry.start <= entry.end
  {
    Range(entry.start, entry.end, Prefix(entry.name), entry.record)
  }

  /** The in-payload ranges among the first `n` entries. */
  function Candidates(entries: seq<Entry>, payload: nat, n: nat): seq<Range>
    requires n <= |entries|
  {
    if n == 0 then []
    else
      var entry := entries[n - 1];
      Candidates(entries, payload, n - 1) + if Valid(entry, payload) then [RangeOf(entry)] else []
  }

  /** How many of the first `n` entries are tensors without an in-payload range. */
  function Unusable(entries: seq<Entry>, payload: nat, n: nat): nat
    requires n <= |entries|
  {
    if n == 0 then 0
    else
      var entry := entries[n - 1];
      Unusable(entries, payload, n - 1) + if entry.Skipped? || Valid(entry, payload) then 0 else 1
  }

  function Considered(entries: seq<Entry>, n: nat): nat
    requires n <= |entries|
  {
    if n == 0 then 0 else Considered(entries, n - 1) + if entries[n - 1].Skipped? then 0 else 1
  }

  predicate Apart(a: Range, b: Range) {
    a.end <= b.start || b.end <= a.start
  }

  ghost predicate PairwiseApart(ranges: seq<Range>) {
    forall i, j :: 0 <= i < j < |ranges| ==> Apart(ranges[i], ranges[j])
  }

  /** Sorting order: by start, and by end among equal starts. */
  predicate Before(a: Range, b: Range) {
    a.start < b.start || (a.start == b.start && a.end <= b.end)
  }

  ghost predicate Sorted(ranges: seq<Range>) {
    forall i, j :: 0 <= i < j < |ranges| ==> Before(ranges[i], ranges[j])
  }

  function Length(range: Range): nat {
    if range.start <= range.end then range.end - range.start else 0
  }

  function BytesOfFirst(ranges: seq<Range>, n: nat): nat
    requires n <= |ranges|
  {
    if n == 0 then 0 else BytesOfFirst(ranges, n - 1) + Length(ranges[n - 1])
  }

  function TotalBytes(ranges: seq<Range>): nat {
    BytesOfFirst(ranges, |ranges|)
  }

  lemma {:induction false} BytesOfPrefix(ranges: seq<Range>, next: Range, n: nat)
    requires n <= |ranges|
    ensures BytesOfFirst(ranges + [next], n) == BytesOfFirst(ranges, n)
    decreases n
  {
    if n > 0 { BytesOfPrefix(ranges, next, n - 1); }
  }

  lemma BytesStep(ranges: seq<Range>, next: Range)
    ensures TotalBytes(ranges + [next]) == TotalBytes(ranges) + Length(next)
  {
    BytesOfPrefix(ranges, next, |ranges|);
  }

  function SampleOf(range: Range): Sampled {
    Sampled(range.name, range.record, Length(range))
  }

  /** The first accepted tensors, as many as are reported. */
  function Sample(accepted: seq<Range>): (sample: seq<Sampled>)
    ensures |sample| == if |accepted| < MAX_SAMPLED then |accepted| else MAX_SAMPLED
  {
    seq(if |accepted| < MAX_SAMPLED then |accepted| else MAX_SAMPLED,
      i requires 0 <= i < |accepted| => SampleOf(accepted[i]))
  }

  ghost predicate WellFormed(ranges: seq<Range>, payload: nat) {
    forall i :: 0 <= i < |ranges| ==> ranges[i].start <= ranges[i].end <= payload
  }

  function End(accepted: seq<Range>): nat {
    if accepted == [] then 0 else accepted[|accepted| - 1].end
  }

  /** What a sweep over the first `n` ranges accepts: each range that starts where the
      last accepted one ended, or later. */
  function Accepted(ranges: seq<Range>, n: nat): seq<Range>
    requires n <= |ranges|
  {
    if n == 0 then []
    else
      var accepted := Accepted(ranges, n - 1);
      if ranges[n - 1].start < End(accepted) then accepted else accepted + [ranges[n - 1]]
  }

  // ----- what the sweep accepts ---------------------------------------------------------

  lemma {:induction false} AcceptedAreRanges(ranges: seq<Range>, n: nat)
    requires n <= |ranges|
    ensures multiset(Accepted(ranges, n)) <= multiset(ranges[..n])
    decreases n
  {
    if n > 0 {
      AcceptedAreRanges(ranges, n - 1);
      assert ranges[..n] == ranges[..n - 1] + [ranges[n - 1]];
    }
  }

  /** The accepted ranges are in order, so their total fits below the last end. */
  lemma {:induction false} AcceptedFit(ranges: seq<Range>, payload: nat, n: nat)
    requires WellFormed(ranges, payload) && n <= |ranges|
    ensures var accepted := Accepted(ranges, n);
      && (forall i :: 0 <= i < |accepted| ==> accepted[i].end <= End(accepted))
      && PairwiseApart(accepted) && TotalBytes(accepted) <= End(accepted) <= payload
    decreases n
  {
    if n > 0 {
      AcceptedFit(ranges, payload, n - 1);
      BytesStep(Accepted(ranges, n - 1), ranges[n - 1]);
    }
  }

  ghost predicate Overlap(ranges: seq<Range>, n: nat) {
    exists i, j :: 0 <= i < j < n && j < |ranges| && !Apart(ranges[i], ranges[j])
  }

  /** The last accepted range is one of those swept. */
  lemma {:induction false} LastAccepted(ranges: seq<Range>, n: nat) returns (i: nat)
    requires n <= |ranges| && Accepted(ranges, n) != []
    ensures i < n && ranges[i] == Accepted(ranges, n)[|Accepted(ranges, n)| - 1]
    decreases n
  {
    if ranges[n - 1].start < End(Accepted(ranges, n - 1)) {
      i := LastAccepted(ranges, n - 1);
    } else {
      i := n - 1;
    }
  }

  /** A refused range overlaps the last accepted one. The tie-break on the end matters: it
      keeps an empty range that starts where another does from being refused. */
  lemma {:induction false} RefusalIsOverlap(ranges: seq<Range>, payload: nat, n: nat)
    requires Sorted(ranges) && WellFormed(ranges, payload) && n <= |ranges|
    ensures |Accepted(ranges, n)| <= n
    ensures |Accepted(ranges, n)| < n ==> Overlap(ranges, n)
    ensures n > 0 ==> Accepted(ranges, n) != []
    decreases n
  {
    if n > 0 {
      RefusalIsOverlap(ranges, payload, n - 1);
      if ranges[n - 1].start < End(Accepted(ranges, n - 1)) {
        var i := LastAccepted(ranges, n - 1);
        assert Before(ranges[i], ranges[n - 1]);
        assert !Apart(ranges[i], ranges[n - 1]);
      }
    }
  }

  lemma {:induction false} AllAccepted(ranges: seq<Range>, n: nat)
    requires n <= |ranges|
    ensures |Accepted(ranges, n)| <= n && (|Accepted(ranges, n)| == n ==> Accepted(ranges, n) == ranges[..n])
    decreases n
  {
    if n > 0 {
      AllAccepted(ranges, n - 1);
      assert ranges[..n] == ranges[..n - 1] + [ranges[n - 1]];
    }
  }

  /** A sweep over the first `n` ranges refuses one exactly when two of them overlap. */
  lemma RefusesIffOverlap(ranges: seq<Range>, payload: nat, n: nat)
    requires Sorted(ranges) && WellFormed(ranges, payload) && n <= |ranges|
    ensures |Accepted(ranges, n)| < n <==> Overlap(ranges, n)
  {
    RefusalIsOverlap(ranges, payload, n);
    AllAccepted(ranges, n);
    AcceptedFit(ranges, payload, n);
    if |Accepted(ranges, n)| == n {
      assert forall i, j :: 0 <= i < j < n ==> Apart(Accepted(ranges, n)[i], Accepted(ranges, n)[j]);
    }
  }

  lemma SweepIsExact(ranges: seq<Range>, payload: nat)
    requires Sorted(ranges) && WellFormed(ranges, payload)
    ensures |Accepted(ranges, |ranges|)| == |ranges| <==> PairwiseApart(ranges)
  {
    RefusalIsOverlap(ranges, payload, |ranges|);
    RefusesIffOverlap(ranges, payload, |ranges|);
  }

  // ----- sorting, which may raise ------------------------------------------------------------

  /** The order of the first three components of the source's tuples. */
  predicate KeyLess(a: Range, b: Range) {
    || a.start < b.start
    || (a.start == b.start && a.end < b.end)
    || (a.start == b.start && a.end == b.end && Less(a.name, b.name))
  }

  /** Equal as far as tuples compare, but with different records. */
  predicate Conflict(a: Range, b: Range) {
    a.start == b.start && a.end == b.end && a.name == b.name && a.record != b.record
  }

  ghost predicate HasConflict(ranges: seq<Range>) {
    exists i, j :: 0 <= i < j < |ranges| && Conflict(ranges[i], ranges[j])
  }

  /** `a < b` on tuples: it comes to comparing two dictionaries, and raises, when everything
      before them is equal and they are not. */
  function TupleLess(a: Range, b: Range): Option<bool> {
    if Conflict(a, b) then None else Some(KeyLess(a, b))
  }

  /** The sorted order of tuples that can be compared. */
  predicate AtMost(a: Range, b: Range) {
    KeyLess(a, b) || a == b
  }

  ghost predicate SortedByKey(ranges: seq<Range>) {
    forall i, j :: 0 <= i < j < |ranges| ==> AtMost(ranges[i], ranges[j])
  }

  lemma KeysCompare(a: Range, b: Range)
    ensures TupleLess(a, b) == Some(false) ==> AtMost(b, a)
    ensures AtMost(a, b) || AtMost(b, a) ==> !Conflict(a, b)
  {
    if a.name != b.name { LessIsTotal(a.name, b.name, 0); }
    LessIsIrreflexive(a.name, 0);
  }

  lemma KeysChain(a: Range, b: Range, c: Range)
    requires AtMost(a, b) && AtMost(b, c)
    ensures AtMost(a, c)
  {
    if Less(a.name, b.name) && Less(b.name, c.name) { LessIsTransitive(a.name, b.name, c.name, 0); }
  }

  // ----- the source's loops ---------------------------------------------------------------

  /** Where a range goes in, or nothing when a comparison raises. */
  method Place(sorted: seq<Range>, range: Range) returns (place: Option<nat>)
    requires SortedByKey(sorted)
    ensures place.None? ==> exists i :: 0 <= i < |sorted| && Conflict(sorted[i], range)
    ensures place.Some? ==>
      && place.value <= |sorted|
      && (forall i :: 0 <= i < place.value ==> AtMost(sorted[i], range))
      && (forall i :: place.value <= i < |sorted| ==> AtMost(range, sorted[i]))
  {
    hide KeyLess;
    var p: nat := |sorted|;
    while p > 0
      invariant p <= |sorted|
      invariant forall i :: p <= i < |sorted| ==> AtMost(range, sorted[i])
    {
      var less := TupleLess(range, sorted[p - 1]);
      if less.None? {
        assert Conflict(sorted[p - 1], range);
        return None;
      }
      if !less.value {
        KeysCompare(range, sorted[p - 1]);
        forall i | 0 <= i < p - 1 ensures AtMost(sorted[i], range) { KeysChain(sorted[i], sorted[p - 1], range); }
        break;
      }
      p := p - 1;
    }
    return Some(p);
  }

  /** `sorted`, as an insertion sort. Any comparison sort gives the same list, and raises on
      the same lists: neighbours in the order cannot be told apart without comparing them. */
  method SortRanges(ranges: seq<Range>) returns (sorted: Option<seq<Range>>)
    ensures sorted.None? <==> HasConflict(ranges)
    ensures sorted.Some? ==> SortedByKey(sorted.value) && multiset(sorted.value) == multiset(ranges)
  {
    hide KeyLess;
    var list := [];
    for k := 0 to |ranges|
      invariant SortedByKey(list) && multiset(list) == multiset(ranges[..k])
    {
      var place := Place(list, ranges[k]);
      if place.None? {
        ConflictFound(ranges, k, list);
        return None;
      }
      var i := place.value;
      assert ranges[..k + 1] == ranges[..k] + [ranges[k]];
      assert list == list[..i] + list[i..];
      list := list[..i] + [ranges[k]] + list[i..];
    }
    assert ranges[..|ranges|] == ranges;
    SortedHasNoConflict(list, ranges);
    return Some(list);
  }

  lemma ConflictFound(ranges: seq<Range>, k: nat, list: seq<Range>)
    requires k < |ranges| && multiset(list) == multiset(ranges[..k])
    requires exists i :: 0 <= i < |list| && Conflict(list[i], ranges[k])
    ensures HasConflict(ranges)
  {
    var i :| 0 <= i < |list| && Conflict(list[i], ranges[k]);
    var j := PlaceOf(list, ranges[..k], i);
    assert Conflict(ranges[j], ranges[k]);
  }

  lemma SortedHasNoConflict(list: seq<Range>, ranges: seq<Range>)
    requires SortedByKey(list) && multiset(list) == multiset(ranges)
    ensures !HasConflict(ranges)
  {
    hide KeyLess;
    forall i, j | 0 <= i < j < |ranges| ensures !Conflict(ranges[i], ranges[j]) {
      var k, l := Places(ranges, list, i, j);
      KeysCompare(list[k], list[l]);
      assert if k < l then AtMost(list[k], list[l]) else AtMost(list[l], list[k]);
    }
  }

  /** Two tensors over the same bytes, whose names agree as far as they are compared: sorting
      them raises. */
  lemma ConflictingTensors(payload: nat, first: string, second: string)
    requires first != second
    ensures var name := seq(NAME_BYTES, _ => 'a');
      var entries := [Offsets(name + "1", 0, 0, first), Offsets(name + "2", 0, 0, second)];
      HasConflict(Candidates(entries, payload, 2))
  {
    var name := seq(NAME_BYTES, _ => 'a');
    var entries := [Offsets(name + "1", 0, 0, first), Offsets(name + "2", 0, 0, second)];
    assert Prefix(name + "1") == name == Prefix(name + "2");
    assert Candidates(entries, payload, 1) == [Range(0, 0, name, first)];
    var candidates := Candidates(entries, payload, 2);
    assert candidates == [Range(0, 0, name, first), Range(0, 0, name, second)];
    assert Conflict(candidates[0], candidates[1]);
  }

  method CollectCandidates(entries: seq<Entry>, payload: nat) returns (candidates: seq<Range>, invalid: nat)
    ensures candidates == Candidates(entries, payload, |entries|)
    ensures invalid == Unusable(entries, payload, |entries|)
    ensures WellFormed(candidates, payload) && |candidates| + invalid == Considered(entries, |entries|)
  {
    candidates, invalid := [], 0;
    for k := 0 to |entries|
      invariant candidates == Candidates(entries, payload, k) && invalid == Unusable(entries, payload, k)
      invariant WellFormed(candidates, payload) && |candidates| + invalid == Considered(entries, k)
    {
      match entries[k] {
        case Skipped =>
        case Malformed => invalid := invalid + 1;
        case Offsets(name, start, end, record) =>
          if start < 0 || end < start || end > payload {
            invalid := invalid + 1;
          } else {
            candidates := candidates + [Range(start, end, Prefix(name), record)];
          }
      }
    }
  }

  lemma SampleStep(accepted: seq<Range>, next: Range)
    ensures Sample(accepted + [next]) ==
      if |accepted| < MAX_SAMPLED then Sample(accepted) + [SampleOf(next)] else Sample(accepted)
  {
  }

  method SweepRanges(ranges: seq<Range>) returns (count: nat, sampled: seq<Sampled>, total: nat, refused: nat)
    requires forall i :: 0 <= i < |ranges| ==> ranges[i].start <= ranges[i].end
    ensures count == |Accepted(ranges, |ranges|)| && count + refused == |ranges|
    ensures sampled == Sample(Accepted(ranges, |ranges|)) && total == TotalBytes(Accepted(ranges, |ranges|))
  {
    sampled, count, total, refused := [], 0, 0, 0;
    var previousEnd: nat := 0;
    ghost var accepted := [];
    for k := 0 to |ranges|
      invariant accepted == Accepted(ranges, k) && previousEnd == End(accepted)
      invariant count == |accepted| && count + refused == k
      invariant sampled == Sample(accepted) && total == TotalBytes(accepted)
    {
      var next := ranges[k];
      if next.start < previousEnd {
        refused := refused + 1;
        continue;
      }
      SampleStep(accepted, next);
      BytesStep(accepted, next);
      accepted := accepted + [next];
      previousEnd := next.end;
      count := count + 1;
      var length: nat := next.end - next.start;
      total := total + length;
      if |sampled| < MAX_SAMPLED {
        sampled := sampled + [Sampled(next.name, next.record, length)];
      }
    }
  }

  /** What a report says about its candidates. */
  ghost predicate Accurate(d: Details, accepted: seq<Range>, candidates: seq<Range>,
                           considered: nat, unusable: nat, payload: nat, truncated: bool)
  {
    // Accepted and invalid entries account for every entry considered.
    && d.tensorCount + d.invalidRanges == considered
    // The accepted ranges are candidates in order, do not overlap, and fit the payload.
    && d.tensorCount == |accepted| && multiset(accepted) <= multiset(candidates) && PairwiseApart(accepted)
    && d.tensorBytes == TotalBytes(accepted) <= payload && d.sampled == Sample(accepted)
    // The sweep refuses a range exactly when some two candidates overlap.
    && (d.invalidRanges == unusable <==> PairwiseApart(candidates))
    && (d.payloadAvailable <==> !truncated && unusable == 0 && PairwiseApart(candidates))
  }

  datatype Outcome = Raised | NoReport | Reported(details: Details)

  /** The sweep over a header's tensors: it raises exactly when two candidates conflict, and
      has nothing to report exactly when there is no candidate. */
  method TensorReport(entries: seq<Entry>, payload: nat, truncated: bool)
    returns (outcome: Outcome, ghost accepted: seq<Range>)
    ensures outcome.Raised? <==> HasConflict(Candidates(entries, payload, |entries|))
    ensures outcome.NoReport? <==> Candidates(entries, payload, |entries|) == []
    ensures outcome.Reported? ==>
      Accurate(outcome.details, accepted, Candidates(entries, payload, |entries|), Considered(entries, |entries|),
               Unusable(entries, payload, |entries|), payload, truncated)
  {
    hide KeyLess, Accurate, Accepted, HasConflict;
    var candidates, invalidRanges := CollectCandidates(entries, payload);
    var sorted := SortRanges(candidates);
    if sorted.None? {
      NoCandidateNoConflict(candidates);
      return Raised, [];
    }
    var ranges := sorted.value;
    SortedIsSwept(ranges);
    PermutationFacts(ranges, candidates, payload);
    var count, sampled, total, refused := SweepRanges(ranges);
    accepted := Accepted(ranges, |ranges|);
    RefusalIsOverlap(ranges, payload, |ranges|);
    SweepIsAccurate(ranges, candidates, Considered(entries, |entries|), invalidRanges, payload, truncated);
    invalidRanges := invalidRanges + refused;
    if count == 0 { return NoReport, accepted; }
    outcome := Reported(Details(count, sampled, total, invalidRanges, !truncated && invalidRanges == 0));
  }

  lemma NoCandidateNoConflict(ranges: seq<Range>)
    ensures HasConflict(ranges) ==> ranges != []
  {
  }

  lemma SweepIsAccurate(ranges: seq<Range>, candidates: seq<Range>, considered: nat, unusable: nat, payload: nat,
                        truncated: bool)
    requires Sorted(ranges) && multiset(ranges) == multiset(candidates) && WellFormed(candidates, payload)
    requires considered == |candidates| + unusable && |Accepted(ranges, |ranges|)| <= |ranges|
    ensures var accepted := Accepted(ranges, |ranges|);
      var invalid := unusable + (|ranges| - |accepted|);
      Accurate(Details(|accepted|, Sample(accepted), TotalBytes(accepted), invalid, !truncated && invalid == 0),
               accepted, candidates, considered, unusable, payload, truncated)
  {
    hide Accepted, Sample, TotalBytes;
    PermutationFacts(ranges, candidates, payload);
    SweepIsExact(ranges, payload);
    AcceptedFit(ranges, payload, |ranges|);
    AcceptedAreRanges(ranges, |ranges|);
    assert ranges[..|ranges|] == ranges;
  }

  lemma SortedIsSwept(ranges: seq<Range>)
    requires SortedByKey(ranges)
    ensures Sorted(ranges)
  {
  }

  /** The header was read: within its bounds, and a JSON object. */
  predicate IsReadable(dataBytes: nat, headerBytes: nat, header: Option<seq<Entry>>) {
    dataBytes >= 10 && 2 <= headerBytes <= MAX_HEADER_BYTES && 8 + headerBytes <= dataBytes && header.Some?
  }

  method SafetensorsDetails(dataBytes: nat, headerBytes: nat, header: Option<seq<Entry>>, truncated: bool)
    returns (outcome: Outcome, ghost accepted: seq<Range>)
    ensures !IsReadable(dataBytes, headerBytes, header) ==> outcome == NoReport
    ensures IsReadable(dataBytes, headerBytes, header) ==>
      var payload, n := dataBytes - 8 - headerBytes, |header.value|;
      var candidates := Candidates(header.value, payload, n);
      && (outcome.Raised? <==> HasConflict(candidates))
      && (outcome.NoReport? <==> candidates == [])
      && (outcome.Reported? ==>
            Accurate(outcome.details, accepted, candidates, Considered(header.value, n),
                     Unusable(header.value, payload, n), payload, truncated))
  {
    if dataBytes < 10 { return NoReport, []; }
    if !(2 <= headerBytes <= MAX_HEADER_BYTES) || 8 + headerBytes > dataBytes { return NoReport, []; }
    if header.None? { return NoReport, []; }
    outcome, accepted := TensorReport(header.value, dataBytes - 8 - headerBytes, truncated);
  }

  // ----- non-overlap does not depend on the order ---------------------------------------------

  lemma ApartOfPermutation(a: seq<Range>, b: seq<Range>)
    requires multiset(a) == multiset(b)
    ensures PairwiseApart(a) <==> PairwiseApart(b)
  {
    if PairwiseApart(a) { ApartIn(b, a); }
    if PairwiseApart(b) { ApartIn(a, b); }
  }

  lemma ApartIn(a: seq<Range>, b: seq<Range>)
    requires multiset(a) == multiset(b) && PairwiseApart(b)
    ensures PairwiseApart(a)
  {
    forall i, j | 0 <= i < j < |a| ensures Apart(a[i], a[j]) {
      var k, l := Places(a, b, i, j);
      assert if k < l then Apart(b[k], b[l]) else Apart(b[l], b[k]);
    }
  }

  lemma PermutationFacts(a: seq<Range>, b: seq<Range>, payload: nat)
    requires multiset(a) == multiset(b) && WellFormed(b, payload)
    ensures |a| == |b| && WellFormed(a, payload) && (PairwiseApart(a) <==> PairwiseApart(b))
  {
    assert |multiset(a)| == |a| && |multiset(b)| == |b|;
    forall i | 0 <= i < |a| ensures a[i].start <= a[i].end <= payload {
      assert a[i] in multiset(a) && a[i] in multiset(b) && a[i] in b;
    }
    ApartOfPermutation(a, b);
  }
}
