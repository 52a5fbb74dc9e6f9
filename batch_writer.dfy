/**
 * `batchWriteItems`: writes records to DynamoDB in slices of 25. Each slice
 * is sent with BatchWriteCommand; while the answer leaves items unprocessed
 * and fewer than 5 calls have left items, the unprocessed remainder is sent
 * again after 1000 ms times the number of such calls. A slice that did not
 * throw adds its full length to `written`, whether or not items were still
 * unprocessed; a slice that threw adds nothing and the next slice follows.
 *
 * DynamoDB is an oracle: `store(b, c, request)` is what the c-th send of the
 * b-th slice answers for `request` (the remainder it leaves unprocessed, or
 * a thrown error).
 */
module BatchWriter {
  import opened NvdRecords
  import opened Seqs

  const BATCH_SIZE := 25
  const MAX_BATCH_RETRIES := 5
  const RETRY_DELAY_UNIT := 1000

  datatype SendResult = Sent(unprocessed: seq<CveItem>) | SendThrew

  type Store = (nat, nat, seq<CveItem>) -> SendResult

  // ----- slicing -----

  /** `items.slice(i, i + 25)` for i = 0, 25, 50, ... */
  function Batches(items: seq<CveItem>): seq<seq<CveItem>>
    decreases |items|
  {
    if |items| == 0 then []
    else if |items| <= BATCH_SIZE then [items]
    else [items[..BATCH_SIZE]] + Batches(items[BATCH_SIZE..])
  }

  function Flatten(bs: seq<seq<CveItem>>): seq<CveItem>
    decreases |bs|
  {
    if |bs| == 0 then [] else bs[0] + Flatten(bs[1..])
  }

  /**
   * The slices put back together are the items; every slice holds 1 to 25
   * items, all but the last exactly 25, and there are ceil(n / 25) of them.
   */
  lemma {:induction false} BatchesShape(items: seq<CveItem>)
    ensures Flatten(Batches(items)) == items
    ensures |Batches(items)| == (|items| + BATCH_SIZE - 1) / BATCH_SIZE
    ensures forall k :: 0 <= k < |Batches(items)| ==> 0 < |Batches(items)[k]| <= BATCH_SIZE
    ensures forall k :: 0 <= k < |Batches(items)| - 1 ==> |Batches(items)[k]| == BATCH_SIZE
    decreases |items|
  {
    if |items| > BATCH_SIZE {
      var rest := items[BATCH_SIZE..];
      BatchesShape(rest);
      assert items[..BATCH_SIZE] + rest == items;
      var bs := Batches(items);
      assert bs[1..] == Batches(rest);
      forall k | 0 < k < |bs| ensures bs[k] == Batches(rest)[k - 1] {
      }
    } else if |items| > 0 {
      assert Batches(items)[1..] == [];
    }
  }

  /** The b-th slice starts at item 25 * b. */
  lemma {:induction false} BatchAt(items: seq<CveItem>, b: nat)
    requires BATCH_SIZE * b < |items|
    ensures b < |Batches(items)|
    ensures Batches(items)[b] ==
              items[BATCH_SIZE * b .. if BATCH_SIZE * b + BATCH_SIZE <= |items| then BATCH_SIZE * b + BATCH_SIZE else |items|]
    decreases b
  {
    var hi := if BATCH_SIZE * b + BATCH_SIZE <= |items| then BATCH_SIZE * b + BATCH_SIZE else |items|;
    if b > 0 {
      var rest := items[BATCH_SIZE..];
      BatchAt(rest, b - 1);
      assert Batches(items) == [items[..BATCH_SIZE]] + Batches(rest);
      assert BATCH_SIZE * (b - 1) + BATCH_SIZE == BATCH_SIZE * b;
      assert rest[BATCH_SIZE * (b - 1) .. hi - BATCH_SIZE] == items[BATCH_SIZE * b .. hi];
    } else if |items| <= BATCH_SIZE {
      assert Batches(items) == [items];
      assert items[0..|items|] == items;
    } else {
      assert Batches(items) == [items[..BATCH_SIZE]] + Batches(items[BATCH_SIZE..]);
    }
  }

  /** 53 items are written as slices of 25, 25 and 3. */
  lemma FiftyThreeItems(items: seq<CveItem>)
    requires |items| == 53
    ensures |Batches(items)| == 3
    ensures |Batches(items)[0]| == 25 && |Batches(items)[1]| == 25 && |Batches(items)[2]| == 3
  {
    BatchesShape(items);
    BatchAt(items, 2);
  }

  // ----- one slice -----

  /** Whether the slice threw, how many send calls it made, the delays, and what was still unprocessed. */
  datatype BatchRun = BatchRun(threw: bool, calls: nat, delays: seq<int>, left: seq<CveItem>)

  /** The inner while loop, entered with `unprocessed` after `retries` calls that left items. */
  function SendFrom(store: Store, b: nat, unprocessed: seq<CveItem>, retries: nat): BatchRun
    requires retries <= MAX_BATCH_RETRIES
    decreases MAX_BATCH_RETRIES - retries
  {
    if |unprocessed| == 0 || retries == MAX_BATCH_RETRIES then BatchRun(false, 0, [], unprocessed)
    else match store(b, retries, unprocessed)
      case SendThrew => BatchRun(true, 1, [], unprocessed)
      case Sent(u) =>
        if |u| > 0 then
          var rest := SendFrom(store, b, u, retries + 1);
          BatchRun(rest.threw, rest.calls + 1, [RETRY_DELAY_UNIT * (retries + 1)] + rest.delays, rest.left)
        else BatchRun(false, 1, [], [])
  }

  /** A slice makes at most five send calls, and waits between calls only. */
  lemma {:induction false} SendCallsBounded(store: Store, b: nat, unprocessed: seq<CveItem>, retries: nat)
    requires retries <= MAX_BATCH_RETRIES
    ensures var run := SendFrom(store, b, unprocessed, retries);
            run.calls <= MAX_BATCH_RETRIES - retries && |run.delays| <= run.calls &&
            (run.threw ==> run.calls > 0)
    decreases MAX_BATCH_RETRIES - retries
  {
    if |unprocessed| > 0 && retries < MAX_BATCH_RETRIES && store(b, retries, unprocessed).Sent? {
      var u := store(b, retries, unprocessed).unprocessed;
      if |u| > 0 {
        SendCallsBounded(store, b, u, retries + 1);
      }
    }
  }

  /** The t-th wait of a slice's retries lasts (t + 1) seconds after the calls already made. */
  lemma {:induction false} BackoffDelays(store: Store, b: nat, unprocessed: seq<CveItem>, retries: nat)
    requires retries <= MAX_BATCH_RETRIES
    ensures forall t :: 0 <= t < |SendFrom(store, b, unprocessed, retries).delays| ==>
              SendFrom(store, b, unprocessed, retries).delays[t] == RETRY_DELAY_UNIT * (retries + t + 1)
    decreases MAX_BATCH_RETRIES - retries
  {
    var run := SendFrom(store, b, unprocessed, retries);
    if |unprocessed| > 0 && retries < MAX_BATCH_RETRIES && store(b, retries, unprocessed).Sent? {
      var u := store(b, retries, unprocessed).unprocessed;
      if |u| > 0 {
        var rest := SendFrom(store, b, u, retries + 1);
        BackoffDelays(store, b, u, retries + 1);
        assert run.delays == [RETRY_DELAY_UNIT * (retries + 1)] + rest.delays;
        forall t | 0 <= t < |run.delays| ensures run.delays[t] == RETRY_DELAY_UNIT * (retries + t + 1) {
          if t > 0 {
            assert run.delays[t] == rest.delays[t - 1];
            assert rest.delays[t - 1] == RETRY_DELAY_UNIT * ((retries + 1) + (t - 1) + 1);
          }
        }
      } else {
        assert run.delays == [];
      }
    } else {
      assert run.delays == [];
    }
  }

  /** A slice whose every send rejects the same non-empty remainder: 5 calls, 1 to 5 s of waits, and no throw. */
  lemma {:induction false} AlwaysRejected(store: Store, b: nat, unprocessed: seq<CveItem>, retries: nat, rejected: seq<CveItem>)
    requires retries <= MAX_BATCH_RETRIES && |unprocessed| > 0 && |rejected| > 0
    requires forall c: nat, request: seq<CveItem> :: store(b, c, request) == Sent(rejected)
    ensures var run := SendFrom(store, b, unprocessed, retries);
            !run.threw && run.calls == MAX_BATCH_RETRIES - retries &&
            |run.delays| == MAX_BATCH_RETRIES - retries &&
            (retries < MAX_BATCH_RETRIES ==> run.left == rejected)
    decreases MAX_BATCH_RETRIES - retries
  {
    if retries < MAX_BATCH_RETRIES {
      assert store(b, retries, unprocessed) == Sent(rejected);
      AlwaysRejected(store, b, rejected, retries + 1, rejected);
    }
  }

  // ----- all slices -----

  datatype WriteRun = WriteRun(written: nat, delays: seq<int>)

  /** What sending slice number b does; for the real store, SendFrom from the first call. */
  type Sender = (nat, seq<CveItem>) -> BatchRun

  function SenderOf(store: Store): Sender
  {
    (b: nat, batch: seq<CveItem>) => SendFrom(store, b, batch, 0)
  }

  function SizeFrom(bs: seq<seq<CveItem>>, b: nat): nat
    decreases |bs| - b
  {
    if b >= |bs| then 0 else |bs[b]| + SizeFrom(bs, b + 1)
  }

  /** Whether the b-th slice ends in a thrown error. */
  predicate Throws(send: Sender, bs: seq<seq<CveItem>>, b: nat)
    requires b < |bs|
  {
    send(b, bs[b]).threw
  }

  /** The outer for loop from slice b on. */
  function WriteFrom(send: Sender, bs: seq<seq<CveItem>>, b: nat): (run: WriteRun)
    ensures run.written <= SizeFrom(bs, b)
    decreases |bs| - b
  {
    if b >= |bs| then WriteRun(0, [])
    else
      var batch := send(b, bs[b]);
      var rest := WriteFrom(send, bs, b + 1);
      WriteRun((if batch.threw then 0 else |bs[b]|) + rest.written, batch.delays + rest.delays)
  }

  lemma {:induction false} SizeOfFlatten(bs: seq<seq<CveItem>>, b: nat)
    requires b <= |bs|
    ensures SizeFrom(bs, b) == |Flatten(bs[b..])|
    decreases |bs| - b
  {
    if b < |bs| {
      SizeOfFlatten(bs, b + 1);
      assert bs[b..][1..] == bs[b + 1..];
    } else {
      assert bs[b..] == [];
    }
  }

  /** One turn of the outer loop. */
  lemma WriteStep(send: Sender, bs: seq<seq<CveItem>>, b: nat)
    requires b < |bs|
    ensures WriteFrom(send, bs, b).written ==
            (if Throws(send, bs, b) then 0 else |bs[b]|) + WriteFrom(send, bs, b + 1).written
    ensures WriteFrom(send, bs, b).delays == send(b, bs[b]).delays + WriteFrom(send, bs, b + 1).delays
    ensures SizeFrom(bs, b) == |bs[b]| + SizeFrom(bs, b + 1)
  {
  }

  /**
   * Every item is counted as written exactly when no slice threw; an
   * unprocessed remainder left after the fifth call does not reduce the count.
   */
  lemma {:induction false} AllWrittenIffNoThrow(send: Sender, bs: seq<seq<CveItem>>, b: nat)
    requires forall k :: 0 <= k < |bs| ==> |bs[k]| > 0
    ensures WriteFrom(send, bs, b).written == SizeFrom(bs, b) <==>
            forall k :: b <= k < |bs| ==> !Throws(send, bs, k)
    decreases |bs| - b
  {
    if b < |bs| {
      AllWrittenIffNoThrow(send, bs, b + 1);
      WriteStep(send, bs, b);
      assert WriteFrom(send, bs, b + 1).written <= SizeFrom(bs, b + 1);
      if Throws(send, bs, b) {
        assert WriteFrom(send, bs, b).written < SizeFrom(bs, b);
      } else {
        assert (forall k :: b <= k < |bs| ==> !Throws(send, bs, k)) <==>
               (forall k :: b + 1 <= k < |bs| ==> !Throws(send, bs, k));
      }
    }
  }

  /** A slice that throws costs exactly its own items and the run goes on with the next slice. */
  lemma ThrownBatchSkipped(send: Sender, bs: seq<seq<CveItem>>, b: nat)
    requires b < |bs| && Throws(send, bs, b)
    ensures WriteFrom(send, bs, b).written == WriteFrom(send, bs, b + 1).written
  {
  }

  /**
   * A full slice whose every send leaves the same items unprocessed is still
   * counted in full: those items are dropped, yet `written` grows by 25.
   */
  lemma RejectedItemsStillCounted(store: Store, items: seq<CveItem>, rejected: seq<CveItem>)
    requires |items| == BATCH_SIZE && |rejected| > 0
    requires forall c: nat, request: seq<CveItem> :: store(0, c, request) == Sent(rejected)
    ensures WriteFrom(SenderOf(store), Batches(items), 0).written == BATCH_SIZE
  {
    BatchesShape(items);
    BatchAt(items, 0);
    assert Batches(items)[0] == items;
    AlwaysRejected(store, 0, items, 0, rejected);
    WriteStep(SenderOf(store), Batches(items), 0);
  }

  // ----- the method -----

  /** One send that answered: the loop goes on with what it left unprocessed, after a wait if anything was left. */
  lemma SendStep(store: Store, b: nat, unprocessed: seq<CveItem>, retries: nat, u: seq<CveItem>)
    requires retries < MAX_BATCH_RETRIES && |unprocessed| > 0
    requires store(b, retries, unprocessed) == Sent(u)
    ensures var run := SendFrom(store, b, unprocessed, retries);
            var next := if |u| > 0 then retries + 1 else retries;
            var wait := if |u| > 0 then [RETRY_DELAY_UNIT * next] else [];
            run.threw == SendFrom(store, b, u, next).threw &&
            run.delays == wait + SendFrom(store, b, u, next).delays
  {
  }

  /** One send call: either the slice stops here (it threw), or the loop goes on with what was left unprocessed. */
  method SendOnce(store: Store, b: nat, unprocessed: seq<CveItem>, retries: nat)
    returns (stop: bool, u: seq<CveItem>, next: nat, wait: seq<int>)
    requires retries < MAX_BATCH_RETRIES && |unprocessed| > 0
    ensures stop ==> SendFrom(store, b, unprocessed, retries).threw && SendFrom(store, b, unprocessed, retries).delays == []
    ensures !stop ==> retries <= next <= MAX_BATCH_RETRIES && (retries < next || |u| == 0)
    ensures !stop ==> SendFrom(store, b, unprocessed, retries).threw == SendFrom(store, b, u, next).threw
    ensures !stop ==> SendFrom(store, b, unprocessed, retries).delays == wait + SendFrom(store, b, u, next).delays
  {
    var result := store(b, retries, unprocessed);
    if result.SendThrew? {
      return true, unprocessed, retries, [];
    }
    u := result.unprocessed;
    SendStep(store, b, unprocessed, retries, u);
    stop := false;
    if |u| > 0 {
      next := retries + 1;
      wait := [RETRY_DELAY_UNIT * next];
    } else {
      next := retries;
      wait := [];
    }
  }

  /** The inner while loop for one slice. */
  method WriteBatch(store: Store, b: nat, batch: seq<CveItem>) returns (threw: bool, delays: seq<int>)
    ensures threw == SendFrom(store, b, batch, 0).threw
    ensures delays == SendFrom(store, b, batch, 0).delays
  {
    ghost var whole := SendFrom(store, b, batch, 0);
    var unprocessed := batch;
    var retries := 0;
    delays := [];
    while |unprocessed| > 0 && retries < MAX_BATCH_RETRIES
      invariant retries <= MAX_BATCH_RETRIES
      invariant whole.threw == SendFrom(store, b, unprocessed, retries).threw
      invariant whole.delays == delays + SendFrom(store, b, unprocessed, retries).delays
      decreases MAX_BATCH_RETRIES - retries, |unprocessed|
    {
      var stop, u, next, wait := SendOnce(store, b, unprocessed, retries);
      if stop {
        AppendEmpty(delays);
        return true, delays;
      }
      AppendAssoc(delays, wait, SendFrom(store, b, u, next).delays);
      delays := delays + wait;
      unprocessed, retries := u, next;
    }
    AppendEmpty(delays);
    threw := false;
  }

  /** There is a b-th slice exactly when item 25 * b exists. */
  lemma SliceExists(items: seq<CveItem>, b: nat)
    ensures BATCH_SIZE * b < |items| <==> b < |Batches(items)|
  {
    BatchesShape(items);
  }

  /** One turn of the outer loop: slice b, sent until done; how much it adds to `written`, and its waits. */
  method WriteSlice(store: Store, items: seq<CveItem>, i: nat, b: nat) returns (added: nat, d: seq<int>)
    requires i == BATCH_SIZE * b < |items|
    ensures b < |Batches(items)|
    ensures added == if Throws(SenderOf(store), Batches(items), b) then 0 else |Batches(items)[b]|
    ensures d == SenderOf(store)(b, Batches(items)[b]).delays
  {
    BatchAt(items, b);
    var batch := items[i .. if i + BATCH_SIZE <= |items| then i + BATCH_SIZE else |items|];
    var threw;
    threw, d := WriteBatch(store, b, batch);
    added := if threw then 0 else |batch|;
  }

  method BatchWriteItems(store: Store, items: seq<CveItem>) returns (written: nat, delays: seq<int>)
    ensures WriteRun(written, delays) == WriteFrom(SenderOf(store), Batches(items), 0)
    ensures written <= |items|
  {
    ghost var bs := Batches(items);
    ghost var send := SenderOf(store);
    ghost var whole := WriteFrom(send, bs, 0);
    written, delays := 0, [];
    var i := 0;
    var b: nat := 0;
    while i < |items|
      invariant i == BATCH_SIZE * b && b <= |bs|
      invariant whole.written == written + WriteFrom(send, bs, b).written
      invariant whole.delays == delays + WriteFrom(send, bs, b).delays
      decreases |items| - i
    {
      var added, d := WriteSlice(store, items, i, b);
      WriteStep(send, bs, b);
      ghost var rest := WriteFrom(send, bs, b + 1);
      AppendAssoc(delays, d, rest.delays);
      written, delays := written + added, delays + d;
      i, b := i + BATCH_SIZE, b + 1;
    }
    SliceExists(items, b);
    AppendEmpty(delays);
    BatchesShape(items);
    SizeOfFlatten(bs, 0);
    assert bs[0..] == bs;
  }
}
