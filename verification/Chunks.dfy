/**
  The request splitter of the agent-run reporter (dashboard/provisioner/hivra-agent-trace.py,
  `_chunks`): groups of at most MAX_RECORDS records, halved until each body fits in MAX_BODY.
  `size` stands for the length of the encoded body of a batch.
*/
module Chunks {
  const MAX_RECORDS := 400
  const MAX_BODY := 900_000

  function Flatten<T>(batches: seq<seq<T>>): seq<T> {
    if batches == [] then [] else batches[0] + Flatten(batches[1..])
  }

  predicate Fits<T>(size: seq<T> -> nat, batch: seq<T>) {
    size(batch) <= MAX_BODY || |batch| <= 1
  }

  /** What becomes of one group: the group itself, or what becomes of its halves. */
  function Split<T>(size: seq<T> -> nat, group: seq<T>): seq<seq<T>>
    decreases |group|
  {
    if Fits(size, group) then [group]
    else Split(size, group[..|group| / 2]) + Split(size, group[|group| / 2..])
  }

  function SplitAll<T>(size: seq<T> -> nat, groups: seq<seq<T>>): seq<seq<T>> {
    if groups == [] then [] else Split(size, groups[0]) + SplitAll(size, groups[1..])
  }

  function Groups<T>(records: seq<T>): seq<seq<T>>
    decreases |records|
  {
    if records == [] then []
    else if |records| <= MAX_RECORDS then [records]
    else [records[..MAX_RECORDS]] + Groups(records[MAX_RECORDS..])
  }

  function Batches<T>(size: seq<T> -> nat, records: seq<T>): seq<seq<T>> {
    SplitAll(size, Groups(records))
  }

  /** Every batch is a non-empty run of at most MAX_RECORDS records that fits, or a single record. */
  ghost predicate Sendable<T>(size: seq<T> -> nat, batches: seq<seq<T>>) {
    forall i :: 0 <= i < |batches| ==>
      0 < |batches[i]| <= 400 && (size(batches[i]) <= 900_000 || |batches[i]| == 1)
  }

  lemma {:induction false} FlattenConcat<T>(a: seq<seq<T>>, b: seq<seq<T>>)
    ensures Flatten(a + b) == Flatten(a) + Flatten(b)
  {
    if a == [] {
      assert a + b == b;
    } else {
      assert (a + b)[1..] == a[1..] + b;
      FlattenConcat(a[1..], b);
    }
  }

  lemma {:induction false} SplitWhole<T>(size: seq<T> -> nat, group: seq<T>)
    ensures Flatten(Split(size, group)) == group
    ensures 0 < |group| <= MAX_RECORDS ==> Sendable(size, Split(size, group))
    decreases |group|
  {
    if Fits(size, group) {
      assert Flatten([group]) == group + Flatten([group][1..]);
    } else {
      var half := |group| / 2;
      SplitWhole(size, group[..half]);
      SplitWhole(size, group[half..]);
      FlattenConcat(Split(size, group[..half]), Split(size, group[half..]));
      assert group[..half] + group[half..] == group;
    }
  }

  lemma {:induction false} SplitAllWhole<T>(size: seq<T> -> nat, groups: seq<seq<T>>)
    requires forall i :: 0 <= i < |groups| ==> 0 < |groups[i]| <= MAX_RECORDS
    ensures Flatten(SplitAll(size, groups)) == Flatten(groups) && Sendable(size, SplitAll(size, groups))
  {
    if groups != [] {
      SplitWhole(size, groups[0]);
      SplitAllWhole(size, groups[1..]);
      FlattenConcat(Split(size, groups[0]), SplitAll(size, groups[1..]));
    }
  }

  lemma {:induction false} GroupsWhole<T>(records: seq<T>)
    ensures Flatten(Groups(records)) == records
    ensures forall i :: 0 <= i < |Groups(records)| ==> 0 < |Groups(records)[i]| <= MAX_RECORDS
    decreases |records|
  {
    if |records| > MAX_RECORDS {
      GroupsWhole(records[MAX_RECORDS..]);
      assert records == records[..MAX_RECORDS] + records[MAX_RECORDS..];
    } else if records != [] {
      assert Flatten([records]) == records + Flatten([records][1..]);
    }
  }

  /** The batches concatenate to the records in order, and each can be sent. */
  lemma BatchesWhole<T>(size: seq<T> -> nat, records: seq<T>)
    ensures Flatten(Batches(size, records)) == records && Sendable(size, Batches(size, records))
  {
    GroupsWhole(records);
    SplitAllWhole(size, Groups(records));
  }

  // ---- nothing is split that need not be ----

  /** The batch is one of the two halves of a stretch of the group whose body is too large. */
  ghost predicate HalfOfTooLarge<T(!new)>(size: seq<T> -> nat, group: seq<T>, batch: seq<T>) {
    exists lo: nat, hi: nat :: lo <= hi <= |group| && Halves(size, group[lo..hi], batch)
  }

  predicate Halves<T(==)>(size: seq<T> -> nat, stretch: seq<T>, batch: seq<T>) {
    && |stretch| > 1 && size(stretch) > 900_000
    && (batch == stretch[..|stretch| / 2] || batch == stretch[|stretch| / 2..])
  }

  /** Every batch of a group is the group itself, or a half of a stretch of it that is too large. */
  ghost predicate SplitForSize<T(!new)>(size: seq<T> -> nat, group: seq<T>, batches: seq<seq<T>>) {
    forall batch :: batch in batches ==> batch == group || HalfOfTooLarge(size, group, batch)
  }

  lemma StretchOfStretch<T>(group: seq<T>, from: nat, to: nat, lo: nat, hi: nat)
    requires from <= to <= |group| && lo <= hi <= to - from
    ensures group[from..to][lo..hi] == group[from + lo..from + hi]
  {
    var a, b := group[from..to][lo..hi], group[from + lo..from + hi];
    assert |a| == |b| && forall i :: 0 <= i < |a| ==> a[i] == b[i];
  }

  lemma HalfOfPart<T(!new)>(size: seq<T> -> nat, group: seq<T>, from: nat, to: nat, batch: seq<T>)
    requires from <= to <= |group| && HalfOfTooLarge(size, group[from..to], batch)
    ensures HalfOfTooLarge(size, group, batch)
  {
    var lo: nat, hi: nat :| lo <= hi <= to - from && Halves(size, group[from..to][lo..hi], batch);
    StretchOfStretch(group, from, to, lo, hi);
  }

  lemma {:induction false} SplitOnlyForSize<T(!new)>(size: seq<T> -> nat, group: seq<T>)
    ensures SplitForSize(size, group, Split(size, group))
    decreases |group|
  {
    if !Fits(size, group) {
      var half := |group| / 2;
      SplitOnlyForSize(size, group[..half]);
      SplitOnlyForSize(size, group[half..]);
      forall batch | batch in Split(size, group) ensures HalfOfTooLarge(size, group, batch) {
        assert group[0..|group|] == group && group[0..half] == group[..half] && group[half..|group|] == group[half..];
        if batch == group[..half] || batch == group[half..] {
          assert Halves(size, group[0..|group|], batch);
        } else if batch in Split(size, group[..half]) {
          HalfOfPart(size, group, 0, half, batch);
        } else {
          HalfOfPart(size, group, half, |group|, batch);
        }
      }
    }
  }

  /** The batch comes from the group of at most MAX_RECORDS records that begins at a multiple of it. */
  ghost predicate FromGroup<T(!new)>(size: seq<T> -> nat, records: seq<T>, batch: seq<T>) {
    exists k: nat :: k < |records| && k % MAX_RECORDS == 0 && SplitForSize(size, GroupAt(records, k), [batch])
  }

  function GroupAt<T>(records: seq<T>, k: nat): seq<T>
    requires k < |records|
  {
    if k + MAX_RECORDS <= |records| then records[k..k + MAX_RECORDS] else records[k..]
  }

  lemma NextGroup<T>(records: seq<T>, next: nat)
    requires records != [] && next == if |records| <= MAX_RECORDS then |records| else MAX_RECORDS
    ensures Groups(records) == [records[..next]] + Groups(records[next..])
  {
    if |records| <= MAX_RECORDS {
      assert records[..next] == records && Groups(records[next..]) == [];
    }
  }

  lemma LaterGroup<T(!new)>(size: seq<T> -> nat, records: seq<T>, batch: seq<T>)
    requires |records| > MAX_RECORDS && FromGroup(size, records[MAX_RECORDS..], batch)
    ensures FromGroup(size, records, batch)
  {
    var rest := records[MAX_RECORDS..];
    var k: nat :| k < |rest| && k % MAX_RECORDS == 0 && SplitForSize(size, GroupAt(rest, k), [batch]);
    assert GroupAt(rest, k) == GroupAt(records, k + MAX_RECORDS);
    assert (k + MAX_RECORDS) % MAX_RECORDS == 0;
  }

  /**
    Records are split only as far as they must be: each batch is a whole group of 400 records (the
    last one shorter), or a half of a stretch of its group whose body is too large. In particular
    records that fit in one body are sent in one.
  */
  lemma {:induction false} BatchesLargest<T(!new)>(size: seq<T> -> nat, records: seq<T>)
    ensures forall batch :: batch in Batches(size, records) ==> FromGroup(size, records, batch)
    ensures 0 < |records| <= 400 && size(records) <= 900_000 ==> Batches(size, records) == [records]
    decreases |records|
  {
    if records != [] {
      var first := GroupAt(records, 0);
      var rest := records[|first|..];
      SplitOnlyForSize(size, first);
      BatchesLargest(size, rest);
      NextGroup(records, |first|);
      assert records[..|first|] == first;
      assert Batches(size, records) == Split(size, first) + Batches(size, rest);
      forall batch | batch in Batches(size, records) ensures FromGroup(size, records, batch) {
        if batch in Split(size, first) {
          assert SplitForSize(size, GroupAt(records, 0), [batch]);
        } else {
          assert batch in Batches(size, rest);
          LaterGroup(size, records, batch);
        }
      }
      if |records| <= MAX_RECORDS && size(records) <= MAX_BODY {
        assert first == records && rest == [];
      }
    }
  }

  lemma {:induction false} SplitAllConcat<T>(size: seq<T> -> nat, a: seq<seq<T>>, b: seq<seq<T>>)
    ensures SplitAll(size, a + b) == SplitAll(size, a) + SplitAll(size, b)
  {
    if a == [] {
      assert a + b == b;
    } else {
      assert (a + b)[1..] == a[1..] + b;
      SplitAllConcat(size, a[1..], b);
    }
  }

  /** Work left in a worklist: a group of n records can be taken up at most 2n - 1 times. */
  ghost function Work<T>(pending: seq<seq<T>>): nat {
    if pending == [] then 0 else (if |pending[0]| == 0 then 1 else 2 * |pending[0]| - 1) + Work(pending[1..])
  }

  lemma SplitStep<T>(size: seq<T> -> nat, chunk: seq<T>, pending: seq<seq<T>>)
    requires !Fits(size, chunk)
    ensures var half := |chunk| / 2; var longer := [chunk[..half], chunk[half..]] + pending;
            && SplitAll(size, longer) == Split(size, chunk) + SplitAll(size, pending)
            && Work(longer) < Work([chunk] + pending)
  {
    var half := |chunk| / 2;
    var halves := [chunk[..half], chunk[half..]];
    SplitAllConcat(size, halves, pending);
    assert halves[1..] == [chunk[half..]] && halves[1..][1..] == [];
    assert (halves + pending)[1..] == [chunk[half..]] + pending && ([chunk[half..]] + pending)[1..] == pending;
    assert ([chunk] + pending)[1..] == pending;
  }

  /** The worklist of one group, split at its head until it is empty. */
  method SplitGroup<T>(size: seq<T> -> nat, group: seq<T>) returns (batches: seq<seq<T>>)
    ensures batches == Split(size, group)
  {
    batches := [];
    var pending := [group];
    assert SplitAll(size, pending) == Split(size, group) + SplitAll(size, pending[1..]);
    while pending != []
      invariant batches + SplitAll(size, pending) == Split(size, group)
      decreases Work(pending)
    {
      var chunk := pending[0];
      ghost var before := pending;
      pending := pending[1..];
      if size(chunk) > MAX_BODY && |chunk| > 1 {
        SplitStep(size, chunk, pending);
        assert before == [chunk] + pending;
        pending := [chunk[..|chunk| / 2], chunk[|chunk| / 2..]] + pending;
      } else {
        batches := batches + [chunk];
      }
    }
  }

  /** `_chunks` */
  method ChunkBodies<T>(size: seq<T> -> nat, records: seq<T>) returns (batches: seq<seq<T>>)
    ensures batches == Batches(size, records)
    ensures Flatten(batches) == records && Sendable(size, batches)
  {
    BatchesWhole(size, records);
    batches := [];
    var index := 0;
    while index < |records|
      invariant index <= |records|
      invariant Batches(size, records) == batches + Batches(size, records[index..])
    {
      var next := if index + MAX_RECORDS < |records| then index + MAX_RECORDS else |records|;
      NextGroup(records[index..], next - index);
      assert records[index..][..next - index] == records[index..next]
          && records[index..][next - index..] == records[next..];
      var split := SplitGroup(size, records[index..next]);
      batches := batches + split;
      index := next;
    }
    assert records[index..] == [];
  }
}
