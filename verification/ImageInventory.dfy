/** Batched image inspection with one-by-one fallback
    (backend/docker-image-inventory.ts, lines 204-244). */
module ImageInventory {
  import opened Common

  type ImageId = string

  /** Answer of one `docker image inspect` command. */
  datatype Answer = Images(images: seq<ImageId>) | NoSuchImage | OtherFailure

  datatype InspectError = DaemonFailure

  /** The daemon over time: `present(t)` are the images it holds when it receives its t-th
      command, and `broken(t)` says that this command fails for an unrelated reason. */
  datatype History = History(present: nat -> set<ImageId>, broken: nat -> bool)

  class Daemon {
    const history: History
    var commands: nat

    constructor (history: History)
      ensures this.history == history && commands == 0
    {
      this.history, commands := history, 0;
    }

    /** The command succeeds only if every requested image exists. */
    method Inspect(ids: seq<ImageId>) returns (answer: Answer)
      modifies this
      ensures commands == old(commands) + 1
      ensures history.broken(old(commands)) <==> answer.OtherFailure?
      ensures answer.Images? ==> answer.images == ids && forall id | id in ids :: id in history.present(old(commands))
      ensures answer.NoSuchImage? ==> exists id :: id in ids && id !in history.present(old(commands))
    {
      if history.broken(commands) {
        answer := OtherFailure;
      } else if forall id | id in ids :: id in history.present(commands) {
        answer := Images(ids);
      } else {
        answer := NoSuchImage;
      }
      commands := commands + 1;
    }
  }

  /** `kept` holds those of `ids`, in order, that were seen present when they were looked at,
      each at some command between `from` (inclusive) and `to` (exclusive). */
  ghost predicate Observed(h: History, from: nat, to: nat, ids: seq<ImageId>, kept: seq<ImageId>) {
    if ids == [] then kept == []
    else
      var front, last := ids[..|ids| - 1], ids[|ids| - 1];
      exists t: nat ::
        && from <= t < to
        && if last in h.present(t) then kept != [] && kept[|kept| - 1] == last && Observed(h, from, to, front, kept[..|kept| - 1])
           else Observed(h, from, to, front, kept)
  }

  lemma ObserveOne(h: History, from: nat, to: nat, ids: seq<ImageId>, kept: seq<ImageId>, id: ImageId, t: nat)
    requires Observed(h, from, to, ids, kept) && from <= t < to
    ensures Observed(h, from, to, ids + [id], if id in h.present(t) then kept + [id] else kept)
  {
    assert (ids + [id])[..|ids|] == ids;
    assert (kept + [id])[..|kept|] == kept;
  }

  /** The last image of a non-empty list and the command that looked at it. */
  lemma ObservedLast(h: History, from: nat, to: nat, ids: seq<ImageId>, kept: seq<ImageId>) returns (t: nat, keptFront: seq<ImageId>)
    requires ids != [] && Observed(h, from, to, ids, kept)
    ensures from <= t < to && Observed(h, from, to, ids[..|ids| - 1], keptFront)
    ensures kept == if ids[|ids| - 1] in h.present(t) then keptFront + [ids[|ids| - 1]] else keptFront
  {
    var front, last := ids[..|ids| - 1], ids[|ids| - 1];
    t :| from <= t < to
      && if last in h.present(t) then kept != [] && kept[|kept| - 1] == last && Observed(h, from, to, front, kept[..|kept| - 1])
         else Observed(h, from, to, front, kept);
    keptFront := if last in h.present(t) then kept[..|kept| - 1] else kept;
  }

  lemma {:induction false} ObserveLater(h: History, from: nat, to: nat, to': nat, ids: seq<ImageId>, kept: seq<ImageId>)
    requires Observed(h, from, to, ids, kept) && to <= to'
    ensures Observed(h, from, to', ids, kept)
  {
    if ids == [] {
    } else {
      var front, last := ids[..|ids| - 1], ids[|ids| - 1];
      var t, keptFront := ObservedLast(h, from, to, ids, kept);
      ObserveLater(h, from, to, to', front, keptFront);
      assert last in h.present(t) ==> kept[..|kept| - 1] == keptFront;
    }
  }

  /** The command after those already used looks at one more image. */
  lemma ObserveNext(h: History, from: nat, t: nat, ids: seq<ImageId>, kept: seq<ImageId>, id: ImageId)
    requires Observed(h, from, t, ids, kept) && from <= t
    ensures Observed(h, from, t + 1, ids + [id], if id in h.present(t) then kept + [id] else kept)
  {
    ObserveLater(h, from, t, t + 1, ids, kept);
    ObserveOne(h, from, t + 1, ids, kept, id, t);
  }

  lemma ObserveAfter(h: History, from: nat, to: nat, a: seq<ImageId>, keptA: seq<ImageId>, b: seq<ImageId>, keptB: seq<ImageId>,
                     id: ImageId, t: nat)
    requires Observed(h, from, to, a + b, keptA + keptB) && from <= t < to
    ensures Observed(h, from, to, a + (b + [id]), keptA + if id in h.present(t) then keptB + [id] else keptB)
  {
    ObserveOne(h, from, to, a + b, keptA + keptB, id, t);
    assert (a + b) + [id] == a + (b + [id]) && (keptA + keptB) + [id] == keptA + (keptB + [id]);
  }

  lemma {:induction false} ObserveConcat(h: History, from: nat, mid: nat, to: nat,
                                         a: seq<ImageId>, keptA: seq<ImageId>, b: seq<ImageId>, keptB: seq<ImageId>)
    requires Observed(h, from, mid, a, keptA) && Observed(h, mid, to, b, keptB) && from <= mid <= to
    ensures Observed(h, from, to, a + b, keptA + keptB)
    decreases |b|
  {
    if b == [] {
      ObserveLater(h, from, mid, to, a, keptA);
      assert a + b == a && keptA + keptB == keptA;
    } else {
      var front, last := b[..|b| - 1], b[|b| - 1];
      var t, keptFront := ObservedLast(h, mid, to, b, keptB);
      ObserveConcat(h, from, mid, to, a, keptA, front, keptFront);
      ObserveAfter(h, from, to, a, keptA, front, keptFront, last, t);
      assert b == front + [last];
    }
  }

  lemma {:induction false} AllPresent(h: History, t: nat, ids: seq<ImageId>)
    requires forall id | id in ids :: id in h.present(t)
    ensures Observed(h, t, t + 1, ids, ids)
  {
    if ids == [] {
    } else {
      var front, last := ids[..|ids| - 1], ids[|ids| - 1];
      AllPresent(h, t, front);
      ObserveOne(h, t, t + 1, front, front, last, t);
      assert front + [last] == ids;
    }
  }

  /** The result of an inspection that used the commands from `from` on. */
  ghost predicate Explained(h: History, from: nat, to: nat, ids: seq<ImageId>, r: Result<seq<ImageId>, InspectError>) {
    && from <= to
    && (r.Ok? ==> Observed(h, from, to, ids, r.value))
    && (r.Ok? <==> forall t | from <= t < to :: !h.broken(t))
  }

  /** One more image has been looked at by command `t`. */
  lemma ExplainNext(h: History, from: nat, t: nat, ids: seq<ImageId>, kept: seq<ImageId>, id: ImageId)
    requires Explained(h, from, t, ids, Ok(kept)) && !h.broken(t)
    ensures Explained(h, from, t + 1, ids + [id], Ok(if id in h.present(t) then kept + [id] else kept))
  {
    ObserveNext(h, from, t, ids, kept, id);
  }

  /** Whether the image is there now; None for any other failure of the command. */
  method InspectImage(daemon: Daemon, id: ImageId) returns (present: Option<bool>)
    modifies daemon
    ensures daemon.commands == old(daemon.commands) + 1
    ensures present.None? <==> daemon.history.broken(old(daemon.commands))
    ensures present.Some? ==> (present.value <==> id in daemon.history.present(old(daemon.commands)))
  {
    var answer := daemon.Inspect([id]);
    assert id in [id];
    match answer
    case Images(images) => return Some(true);
    case NoSuchImage => return Some(false);
    case OtherFailure => return None;
  }

  /** One round of the fallback: an image that has disappeared is skipped. */
  method InspectNext(daemon: Daemon, ghost from: nat, ghost done: seq<ImageId>, id: ImageId, surviving: seq<ImageId>)
    returns (r: Result<seq<ImageId>, InspectError>)
    requires Explained(daemon.history, from, daemon.commands, done, Ok(surviving))
    modifies daemon
    ensures daemon.commands == old(daemon.commands) + 1
    ensures r.Err? <==> daemon.history.broken(old(daemon.commands))
    ensures r.Ok? ==> Explained(daemon.history, from, daemon.commands, done + [id], r)
  {
    var present := InspectImage(daemon, id);
    if present.None? {
      return Err(DaemonFailure);
    }
    ExplainNext(daemon.history, from, old(daemon.commands), done, surviving, id);
    r := Ok(if present.value then surviving + [id] else surviving);
  }

  method InspectOneByOne(daemon: Daemon, ids: seq<ImageId>) returns (r: Result<seq<ImageId>, InspectError>)
    modifies daemon
    ensures Explained(daemon.history, old(daemon.commands), daemon.commands, ids, r)
    ensures daemon.commands <= old(daemon.commands) + |ids|
  {
    ghost var from := daemon.commands;
    r := Ok([]);
    for i := 0 to |ids|
      invariant daemon.commands == from + i
      invariant r.Ok? && Explained(daemon.history, from, daemon.commands, ids[..i], r)
    {
      r := InspectNext(daemon, from, ids[..i], ids[i], r.value);
      if r.Err? {
        return;
      }
      assert ids[..i + 1] == ids[..i] + [ids[i]];
    }
    assert ids[..|ids|] == ids;
  }

  method InspectImageBatch(daemon: Daemon, ids: seq<ImageId>) returns (r: Result<seq<ImageId>, InspectError>)
    modifies daemon
    ensures Explained(daemon.history, old(daemon.commands), daemon.commands, ids, r)
    ensures daemon.commands <= old(daemon.commands) + |ids| + 1
    ensures ids != [] && (forall id | id in ids :: id in daemon.history.present(old(daemon.commands))) ==>
              daemon.commands == old(daemon.commands) + 1
  {
    if ids == [] {
      return Ok([]);
    }
    var answer := daemon.Inspect(ids);
    match answer
    case Images(images) =>
      AllPresent(daemon.history, old(daemon.commands), ids);
      return Ok(images);
    case OtherFailure => return Err(DaemonFailure);
    case NoSuchImage =>
      ghost var from := daemon.commands;
      r := InspectOneByOne(daemon, ids);
      if r.Ok? {
        assert Observed(daemon.history, old(daemon.commands), from, [], []);
        ObserveConcat(daemon.history, old(daemon.commands), from, daemon.commands, [], [], ids, r.value);
        assert [] + ids == ids && [] + r.value == r.value;
      }
  }

  /** `Math.max(1, Math.min(100, Math.trunc(batchSize) || 25))` for an already truncated size. */
  function BatchSize(requested: int): (size: nat)
    ensures 1 <= size <= 100
    ensures 1 <= requested <= 100 ==> size == requested
    ensures requested == 0 ==> size == 25
    ensures requested > 100 ==> size == 100
    ensures requested < 0 ==> size == 1
  {
    var n := if requested == 0 then 25 else requested;
    if n < 1 then 1 else if n > 100 then 100 else n
  }

  /** Number of batches of `size` images that hold `n` images. */
  function Batches(n: nat, size: nat): nat
    requires size > 0
  {
    if n == 0 then 0 else 1 + Batches(if n > size then n - size else 0, size)
  }

  /** Every batch but the last one is full. */
  lemma {:induction false} BatchesMeans(n: nat, size: nat)
    requires size > 0
    ensures n <= Batches(n, size) * size < n + size
  {
    if n > size {
      BatchesMeans(n - size, size);
      var b: nat := Batches(n - size, size);
      assert (1 + b) * size == b * size + size;
    } else if n > 0 {
      assert Batches(n, size) == 1;
    }
  }

  ghost predicate AlwaysPresent(h: History, from: nat, ids: seq<ImageId>) {
    forall t: nat, id | from <= t && id in ids :: id in h.present(t)
  }

  lemma PresentNow(h: History, from: nat, now: nat, ids: seq<ImageId>, offset: nat, end: nat)
    requires AlwaysPresent(h, from, ids) && from <= now && offset <= end <= |ids|
    ensures forall id | id in ids[offset..end] :: id in h.present(now)
  {
    forall id | id in ids[offset..end] ensures id in h.present(now) {
      assert id in ids;
    }
  }

  /** The next batch of a longer list. */
  method InspectNextBatch(daemon: Daemon, ghost from: nat, ids: seq<ImageId>, offset: nat, end: nat, inspected: seq<ImageId>)
    returns (r: Result<seq<ImageId>, InspectError>)
    requires offset < end <= |ids| && Explained(daemon.history, from, daemon.commands, ids[..offset], Ok(inspected))
    modifies daemon
    ensures Explained(daemon.history, from, daemon.commands, ids[..end], r)
    ensures old(daemon.commands) <= daemon.commands <= old(daemon.commands) + (end - offset) + 1
    ensures AlwaysPresent(daemon.history, from, ids) ==> daemon.commands == old(daemon.commands) + 1
  {
    ghost var now := daemon.commands;
    if AlwaysPresent(daemon.history, from, ids) {
      PresentNow(daemon.history, from, now, ids, offset, end);
    }
    var batch := InspectImageBatch(daemon, ids[offset..end]);
    if batch.Err? {
      return Err(DaemonFailure);
    }
    ObserveConcat(daemon.history, from, now, daemon.commands, ids[..offset], inspected, ids[offset..end], batch.value);
    assert ids[..offset] + ids[offset..end] == ids[..end];
    return Ok(inspected + batch.value);
  }

  method InspectDockerImages(daemon: Daemon, ids: seq<ImageId>, batchSize: int) returns (r: Result<seq<ImageId>, InspectError>)
    modifies daemon
    ensures Explained(daemon.history, old(daemon.commands), daemon.commands, ids, r)
    ensures daemon.commands <= old(daemon.commands) + 2 * |ids|
    ensures r.Ok? && AlwaysPresent(daemon.history, old(daemon.commands), ids) ==>
              daemon.commands == old(daemon.commands) + Batches(|ids|, BatchSize(batchSize))
  {
    r := Ok([]);
    var size := BatchSize(batchSize);
    var offset := 0;
    while offset < |ids|
      invariant 0 <= offset <= |ids| && r.Ok?
      invariant daemon.commands <= old(daemon.commands) + 2 * offset
      invariant AlwaysPresent(daemon.history, old(daemon.commands), ids) ==>
                  daemon.commands + Batches(|ids| - offset, size) == old(daemon.commands) + Batches(|ids|, size)
      invariant Explained(daemon.history, old(daemon.commands), daemon.commands, ids[..offset], r)
    {
      var end := if offset + size < |ids| then offset + size else |ids|;
      r := InspectNextBatch(daemon, old(daemon.commands), ids, offset, end, r.value);
      if r.Err? {
        return;
      }
      offset := end;
    }
    assert ids[..offset] == ids;
  }

  // ------------------------------------------- agreement with one-by-one inspection

  function Present(ids: seq<ImageId>, images: set<ImageId>): seq<ImageId> {
    if ids == [] then []
    else
      var front, last := Present(ids[..|ids| - 1], images), ids[|ids| - 1];
      if last in images then front + [last] else front
  }

  /** On a daemon that does not change, any batch size yields the present images in order. */
  lemma {:induction false} FixedDaemonIsExact(h: History, from: nat, to: nat, ids: seq<ImageId>, kept: seq<ImageId>, images: set<ImageId>)
    requires forall t | from <= t < to :: h.present(t) == images
    requires Observed(h, from, to, ids, kept)
    ensures kept == Present(ids, images)
  {
    if ids == [] {
    } else {
      var front, last := ids[..|ids| - 1], ids[|ids| - 1];
      var t: nat :| from <= t < to
        && if last in h.present(t) then kept != [] && kept[|kept| - 1] == last && Observed(h, from, to, front, kept[..|kept| - 1])
           else Observed(h, from, to, front, kept);
      FixedDaemonIsExact(h, from, to, front, if last in images then kept[..|kept| - 1] else kept, images);
      assert last in images ==> kept == kept[..|kept| - 1] + [last];
    }
  }

  /** `a` can be obtained from `b` by leaving elements out. */
  ghost predicate Subsequence(a: seq<ImageId>, b: seq<ImageId>) {
    if b == [] then a == []
    else
      var last := b[|b| - 1];
      || (a != [] && a[|a| - 1] == last && Subsequence(a[..|a| - 1], b[..|b| - 1]))
      || Subsequence(a, b[..|b| - 1])
  }

  lemma SubsequenceAppend(a: seq<ImageId>, b: seq<ImageId>, x: ImageId)
    requires Subsequence(a, b)
    ensures Subsequence(a, b + [x]) && Subsequence(a + [x], b + [x])
  {
    assert (b + [x])[..|b|] == b && (a + [x])[..|a|] == a;
  }

  /** While images can only disappear, the result lies between what was present at the first
      command and what is still present at the end. */
  lemma {:induction false} ShrinkingDaemonIsBracketed(h: History, from: nat, to: nat, ids: seq<ImageId>, kept: seq<ImageId>,
                                                      atStart: set<ImageId>, atEnd: set<ImageId>)
    requires forall t | from <= t < to :: atEnd <= h.present(t) <= atStart
    requires Observed(h, from, to, ids, kept)
    ensures Subsequence(kept, Present(ids, atStart)) && Subsequence(Present(ids, atEnd), kept)
    ensures forall id | id in ids && id in atEnd :: id in kept
    ensures forall id | id in kept :: id in ids && id in atStart
  {
    if ids == [] {
    } else {
      var front, last := ids[..|ids| - 1], ids[|ids| - 1];
      var t: nat :| from <= t < to
        && if last in h.present(t) then kept != [] && kept[|kept| - 1] == last && Observed(h, from, to, front, kept[..|kept| - 1])
           else Observed(h, from, to, front, kept);
      assert ids == front + [last];
      if last in h.present(t) {
        var shorter := kept[..|kept| - 1];
        assert kept == shorter + [last];
        ShrinkingDaemonIsBracketed(h, from, to, front, shorter, atStart, atEnd);
        SubsequenceAppend(shorter, Present(front, atStart), last);
        SubsequenceAppend(Present(front, atEnd), shorter, last);
      } else {
        ShrinkingDaemonIsBracketed(h, from, to, front, kept, atStart, atEnd);
        SubsequenceAppend(kept, Present(front, atStart), last);
      }
    }
  }

  /** Two successful inspections of an unchanged daemon agree, whatever their batch sizes. */
  lemma BatchSizeIsInvisible(h: History, ids: seq<ImageId>, images: set<ImageId>,
                             from1: nat, to1: nat, r1: Result<seq<ImageId>, InspectError>,
                             from2: nat, to2: nat, r2: Result<seq<ImageId>, InspectError>)
    requires Explained(h, from1, to1, ids, r1) && Explained(h, from2, to2, ids, r2)
    requires forall t | from1 <= t < to1 || from2 <= t < to2 :: h.present(t) == images && !h.broken(t)
    ensures r1 == r2 == Ok(Present(ids, images))
  {
    FixedDaemonIsExact(h, from1, to1, ids, r1.value, images);
    FixedDaemonIsExact(h, from2, to2, ids, r2.value, images);
  }
}
