/** The TWAP slicer (`twap_order`): `slices` market orders of
    `round(total / slices, 6)` each, a failed slice skipped, a sleep of
    `duration_min * 60 / slices` seconds after every slice, and the
    successful acknowledgements returned in slice order.

    The two copies of the slicer differ only in the client method a slice
    calls: `futures_create_order` in src/advanced/twap.py, and the
    non-existent `future_create_order` in bot/order_types.py, which raises
    AttributeError before any request goes out. `submits` says which. */
module Twap {
  import opened Common
  import opened Gateway

  const NoSlices := "At least 1 slice required"
  /** What `time.sleep` raises for a negative delay. */
  const NegativeSleep := "sleep length must be non-negative"
  const MissingMethod := "'Client' object has no attribute 'future_create_order'"

  /** The market order every slice submits. */
  function SliceOrder(symbol: string, side: string, total: real, slices: nat): OrderParams
    requires slices >= 1
  {
    OrderParams(symbol, side, Market, RoundedTo6(total / slices as real), None, None, None)
  }

  /** The pause after each slice, in seconds. */
  function Interval(durationMin: real, slices: nat): real
    requires slices >= 1
  {
    durationMin * 60.0 / slices as real
  }

  /** The reply slice `i` gets: the exchange's answer to the create-order
      call at its position, or the AttributeError of the missing method. */
  function SliceReply(g: Gateway, at: nat, submits: bool, i: nat): Result<Ack> {
    if submits then g.createOrder(at + 2 * i) else Raise(OtherError(MissingMethod))
  }

  /** The replies of the first `n` slices, in order. */
  function SliceReplies(g: Gateway, at: nat, submits: bool, n: nat): (rs: seq<Result<Ack>>)
    ensures |rs| == n
    ensures forall i :: 0 <= i < n ==> rs[i] == SliceReply(g, at, submits, i)
  {
    if n == 0 then [] else SliceReplies(g, at, submits, n - 1) + [SliceReply(g, at, submits, n - 1)]
  }

  /** The acknowledgements among the replies, in order. */
  function Successes(rs: seq<Result<Ack>>): (acks: seq<Ack>)
    ensures |acks| <= |rs|
  {
    if |rs| == 0 then []
    else Successes(rs[..|rs| - 1]) + (if rs[|rs| - 1].Ok? then [rs[|rs| - 1].value] else [])
  }

  /** Collecting successes commutes with concatenation, so the result keeps
      the order of the slices. */
  lemma {:induction false} SuccessesAppend(a: seq<Result<Ack>>, b: seq<Result<Ack>>)
    ensures Successes(a + b) == Successes(a) + Successes(b)
    decreases |b|
  {
    if |b| == 0 {
      assert a + b == a;
    } else {
      var b' := b[..|b| - 1];
      assert (a + b)[..|a + b| - 1] == a + b';
      SuccessesAppend(a, b');
    }
  }

  /** The result is empty iff every slice failed, and has one entry per
      slice iff none failed. */
  lemma {:induction false} SuccessesEmptyIffAllFail(rs: seq<Result<Ack>>)
    ensures Successes(rs) == [] <==> forall i :: 0 <= i < |rs| ==> rs[i].Raise?
    ensures |Successes(rs)| == |rs| <==> forall i :: 0 <= i < |rs| ==> rs[i].Ok?
  {
    if |rs| > 0 {
      var init := rs[..|rs| - 1];
      SuccessesEmptyIffAllFail(init);
      assert forall i :: 0 <= i < |init| ==> init[i] == rs[i];
      if !rs[|rs| - 1].Ok? {
        assert |Successes(rs)| <= |init| < |rs|;
      }
    }
  }

  /** The calls of one slice: the create-order call (when the method
      exists) followed by the sleep. */
  function SliceCalls(order: OrderParams, interval: real, submits: bool): seq<Call> {
    if submits then [CreateOrder(order), Sleep(interval)] else [Sleep(interval)]
  }

  /** The trace of the first `n` slices, slice after slice. */
  function Schedule(order: OrderParams, interval: real, submits: bool, n: nat): (t: seq<Call>)
    ensures |t| == if submits then 2 * n else n
  {
    if n == 0 then [] else Schedule(order, interval, submits, n - 1) + SliceCalls(order, interval, submits)
  }

  /** Even positions place the slice order, odd positions sleep. */
  predicate Alternates(t: seq<Call>, order: OrderParams, interval: real) {
    forall k :: 0 <= k < |t| ==> t[k] == (if k % 2 == 0 then CreateOrder(order) else Sleep(interval))
  }

  predicate SleepsOnly(t: seq<Call>, interval: real) {
    forall k :: 0 <= k < |t| ==> t[k] == Sleep(interval)
  }

  /** The schedule alternates order and sleep, or only sleeps in the copy
      whose method is missing. */
  lemma {:induction false} ScheduleShape(order: OrderParams, interval: real, submits: bool, n: nat)
    ensures submits ==> Alternates(Schedule(order, interval, submits, n), order, interval)
    ensures !submits ==> SleepsOnly(Schedule(order, interval, submits, n), interval)
  {
    if n > 0 {
      ScheduleShape(order, interval, submits, n - 1);
      var prev := Schedule(order, interval, submits, n - 1);
      var c := SliceCalls(order, interval, submits);
      var t := Schedule(order, interval, submits, n);
      assert t == prev + c;
      if submits {
        assert |prev| == 2 * n - 2;
        forall k | 0 <= k < |t| ensures t[k] == (if k % 2 == 0 then CreateOrder(order) else Sleep(interval)) {
          if k < |prev| {
            assert t[k] == prev[k];
          } else if k == 2 * n - 2 {
            assert t[k] == c[0];
          } else {
            assert t[k] == c[1];
          }
        }
      } else {
        forall k | 0 <= k < |t| ensures t[k] == Sleep(interval) {
          if k < |prev| {
            assert t[k] == prev[k];
          } else {
            assert t[k] == c[0];
          }
        }
      }
    }
  }

  /** One slice sleeps `interval` and places one order when the method exists. */
  lemma SliceCallsTotals(order: OrderParams, interval: real, submits: bool)
    ensures SleepTotal(SliceCalls(order, interval, submits)) == interval
    ensures CountOrders(SliceCalls(order, interval, submits)) == if submits then 1 else 0
  {
    var c := SliceCalls(order, interval, submits);
    if submits {
      var c1 := c[..|c| - 1];
      assert c1 == [CreateOrder(order)];
      assert c1[..|c1| - 1] == [];
      assert SleepTotal(c1) == 0.0 && CountOrders(c1) == 1;
    } else {
      assert c[..|c| - 1] == [];
    }
  }

  /** `n` copies of `x` added up. */
  function Repeated(n: nat, x: real): real {
    if n == 0 then 0.0 else Repeated(n - 1, x) + x
  }

  lemma {:induction false} RepeatedIsProduct(n: nat, x: real)
    ensures Repeated(n, x) == n as real * x
  {
    if n > 0 {
      RepeatedIsProduct(n - 1, x);
      assert (n - 1) as real * x + x == n as real * x;
    }
  }

  /** Every slice sleeps `interval`, so the schedule sleeps `n` times
      `interval`. */
  lemma {:induction false} ScheduleSleeps(order: OrderParams, interval: real, submits: bool, n: nat)
    ensures SleepTotal(Schedule(order, interval, submits, n)) == Repeated(n, interval)
  {
    if n > 0 {
      var prev := Schedule(order, interval, submits, n - 1);
      var c := SliceCalls(order, interval, submits);
      var t := Schedule(order, interval, submits, n);
      assert t == prev + c;
      SleepTotalAppend(prev, c);
      SliceCallsTotals(order, interval, submits);
      ScheduleSleeps(order, interval, submits, n - 1);
      assert SleepTotal(t) == Repeated(n - 1, interval) + interval;
    }
  }

  /** Every slice places one order, or none in the copy whose method is
      missing. */
  lemma {:induction false} ScheduleOrders(order: OrderParams, interval: real, submits: bool, n: nat)
    ensures CountOrders(Schedule(order, interval, submits, n)) == if submits then n else 0
  {
    if n > 0 {
      ScheduleOrders(order, interval, submits, n - 1);
      CountOrdersAppend(Schedule(order, interval, submits, n - 1), SliceCalls(order, interval, submits));
      SliceCallsTotals(order, interval, submits);
    }
  }

  /** The slicer as a function of the exchange's replies: what it returns
      and the calls it makes. */
  function TwapRun(g: Gateway, at: nat, symbol: string, side: string, total: real,
                   durationMin: real, slices: int, submits: bool): (r: Run<Result<seq<Ack>>>)
    // fewer than one slice raises before any call
    ensures slices < 1 ==> r == Run(Raise(ValueError(NoSlices)), [])
    // otherwise the result is the acknowledged slices, at most one per slice
    ensures r.out.Ok? ==> slices >= 1 && |r.out.value| <= slices
    // no order is placed by the copy whose create-order method is missing
    ensures !submits ==> NoOrders(r.calls) && (r.out.Ok? ==> r.out.value == [])
  {
    if slices < 1 then Run(Raise(ValueError(NoSlices)), [])
    else
      var order := SliceOrder(symbol, side, total, slices);
      var interval := Interval(durationMin, slices);
      SuccessesEmptyIffAllFail(SliceReplies(g, at, submits, slices));
      ScheduleShape(order, interval, submits, slices);
      if interval < 0.0 then
        // the first slice goes out, then its sleep raises and ends the run
        Run(Raise(ValueError(NegativeSleep)), if submits then [CreateOrder(order)] else [])
      else
        Run(Ok(Successes(SliceReplies(g, at, submits, slices))), Schedule(order, interval, submits, slices))
  }

  /** With a non-negative duration the slicer makes exactly `slices` order
      attempts, alternating with `slices` sleeps that add up to the whole
      duration, and never aborts: its result is the successes in order. */
  lemma TwapPacing(g: Gateway, at: nat, symbol: string, side: string, total: real, durationMin: real, slices: int)
    requires slices >= 1 && durationMin >= 0.0
    ensures var r := TwapRun(g, at, symbol, side, total, durationMin, slices, true);
      && r.out == Ok(Successes(SliceReplies(g, at, true, slices)))
      && |r.calls| == 2 * slices
      && CountOrders(r.calls) == slices
      && (forall k :: 0 <= k < |r.calls| && k % 2 == 0 ==>
            r.calls[k] == CreateOrder(OrderParams(symbol, side, Market, RoundedTo6(total / slices as real), None, None, None)))
      && (forall k :: 0 <= k < |r.calls| && k % 2 == 1 ==> r.calls[k] == Sleep(durationMin * 60.0 / slices as real))
      && SleepTotal(r.calls) == durationMin * 60.0
  {
    var interval := Interval(durationMin, slices);
    assert interval >= 0.0;
    ScheduleSleeps(SliceOrder(symbol, side, total, slices), interval, true, slices);
    RepeatedIsProduct(slices, interval);
    ScheduleOrders(SliceOrder(symbol, side, total, slices), interval, true, slices);
    ScheduleShape(SliceOrder(symbol, side, total, slices), interval, true, slices);
    assert slices as real * interval == durationMin * 60.0;
  }

  /** The copy whose create-order method is missing still paces itself:
      every slice's call fails before its sleep, so a non-negative duration
      gives `slices` sleeps of `duration*60/slices` each, adding up to the
      whole duration, and an empty result. */
  lemma TwapSleepsOnly(g: Gateway, at: nat, symbol: string, side: string, total: real, durationMin: real, slices: int)
    requires slices >= 1 && durationMin >= 0.0
    ensures var r := TwapRun(g, at, symbol, side, total, durationMin, slices, false);
      && r.out == Ok([])
      && |r.calls| == slices
      && (forall k :: 0 <= k < |r.calls| ==> r.calls[k] == Sleep(durationMin * 60.0 / slices as real))
      && SleepTotal(r.calls) == durationMin * 60.0
  {
    var order := SliceOrder(symbol, side, total, slices);
    var interval := Interval(durationMin, slices);
    assert interval >= 0.0;
    ScheduleSleeps(order, interval, false, slices);
    RepeatedIsProduct(slices, interval);
    ScheduleShape(order, interval, false, slices);
    assert slices as real * interval == durationMin * 60.0;
  }

  /** All slices failing gives an empty result, not an exception. */
  lemma TwapAllFail(g: Gateway, at: nat, symbol: string, side: string, total: real, durationMin: real, slices: int)
    requires slices >= 1 && durationMin >= 0.0
    requires forall i :: 0 <= i < slices ==> g.createOrder(at + 2 * i).Raise?
    ensures TwapRun(g, at, symbol, side, total, durationMin, slices, true).out == Ok([])
  {
    var rs := SliceReplies(g, at, true, slices);
    assert forall i :: 0 <= i < |rs| ==> rs[i] == g.createOrder(at + 2 * i);
    SuccessesEmptyIffAllFail(rs);
  }

  /** Four slices whose first and third calls fail: both survivors are
      returned in order and all four slices and sleeps still happen. */
  lemma TwapPartialExample(g: Gateway, at: nat, symbol: string, side: string, total: real, durationMin: real, a1: Ack, a3: Ack)
    requires durationMin >= 0.0
    requires g.createOrder(at).Raise? && g.createOrder(at + 2) == Ok(a1)
    requires g.createOrder(at + 4).Raise? && g.createOrder(at + 6) == Ok(a3)
    ensures var r := TwapRun(g, at, symbol, side, total, durationMin, 4, true);
      r.out == Ok([a1, a3]) && |r.calls| == 8 && CountOrders(r.calls) == 4
  {
    var rs := SliceReplies(g, at, true, 4);
    assert rs == [g.createOrder(at), Ok(a1), g.createOrder(at + 4), Ok(a3)];
    assert rs[..3][..2][..1][..0] == [];
    assert Successes(rs[..3][..2][..1]) == [];
    assert Successes(rs[..3][..2]) == [a1];
    assert Successes(rs[..3]) == [a1];
    assert Successes(rs) == [a1, a3];
    TwapPacing(g, at, symbol, side, total, durationMin, 4);
  }

  /** A negative duration: the first slice is placed, then its sleep raises
      and the remaining slices never run. */
  lemma TwapNegativeDuration(g: Gateway, at: nat, symbol: string, side: string, total: real, durationMin: real, slices: int)
    requires slices >= 1 && durationMin < 0.0
    ensures var r := TwapRun(g, at, symbol, side, total, durationMin, slices, true);
      r.out == Raise(ValueError(NegativeSleep)) && |r.calls| == 1 && r.calls[0].CreateOrder?
  {
    assert Interval(durationMin, slices) < 0.0;
  }

  /** A reply's acknowledgement, if it has one. */
  function Acked(reply: Result<Ack>): seq<Ack> {
    if reply.Ok? then [reply.value] else []
  }

  /** The acknowledgements of the first `n` slices, slice by slice. */
  function Collected(g: Gateway, at: nat, submits: bool, n: nat): seq<Ack> {
    if n == 0 then []
    else
      var reply := SliceReply(g, at, submits, n - 1);
      Collected(g, at, submits, n - 1) + Acked(reply)
  }

  /** One more slice keeps collected acknowledgements and successes equal:
      both grow by that slice's acknowledgement, if any. */
  lemma SliceStep(g: Gateway, at: nat, submits: bool, n: nat)
    requires n > 0
    requires Collected(g, at, submits, n - 1) == Successes(SliceReplies(g, at, submits, n - 1))
    ensures Collected(g, at, submits, n) == Successes(SliceReplies(g, at, submits, n))
  {
    var prev := SliceReplies(g, at, submits, n - 1);
    var last := SliceReply(g, at, submits, n - 1);
    var rs := SliceReplies(g, at, submits, n);
    assert rs == prev + [last];
    assert rs[..|rs| - 1] == prev;
    assert Successes(rs) == Successes(prev) + Acked(last);
    assert Collected(g, at, submits, n) == Collected(g, at, submits, n - 1) + Acked(last);
  }

  /** Collecting slice by slice gives the successes among the replies. */
  lemma {:induction false} CollectedIsSuccesses(g: Gateway, at: nat, submits: bool, n: nat)
    ensures Collected(g, at, submits, n) == Successes(SliceReplies(g, at, submits, n))
  {
    if n == 0 {
      assert SliceReplies(g, at, submits, 0) == [];
    } else {
      CollectedIsSuccesses(g, at, submits, n - 1);
      SliceStep(g, at, submits, n);
    }
  }

  /** The slicing loop: each slice submits its order (unless the method is
      missing), keeps a successful acknowledgement, and sleeps. A negative
      interval makes the first sleep raise, which ends the loop. */
  method SliceLoop(g: Gateway, at: nat, order: OrderParams, interval: real, slices: nat, submits: bool)
    returns (acks: seq<Ack>, calls: seq<Call>, sleepFailed: bool)
    requires slices >= 1
    ensures sleepFailed <==> interval < 0.0
    ensures sleepFailed ==> calls == if submits then [CreateOrder(order)] else []
    ensures !sleepFailed ==>
      calls == Schedule(order, interval, submits, slices) && acks == Collected(g, at, submits, slices)
  {
    acks := [];
    calls := [];
    var i := 0;
    while i < slices
      invariant 0 <= i <= slices
      invariant interval < 0.0 ==> i == 0
      invariant calls == Schedule(order, interval, submits, i)
      invariant acks == Collected(g, at, submits, i)
    {
      // the slice's order request (none when the method is missing), then its sleep
      var placed: seq<Call> := [];
      var reply: Result<Ack>;
      if submits {
        reply := g.createOrder(at + |calls|);
        placed := [CreateOrder(order)];
      } else {
        reply := Raise(OtherError(MissingMethod));
      }
      assert reply == SliceReply(g, at, submits, i);
      if reply.Ok? {
        acks := acks + [reply.value];
      }
      if interval < 0.0 {
        return acks, calls + placed, true;
      }
      assert placed + [Sleep(interval)] == SliceCalls(order, interval, submits);
      calls := calls + (placed + [Sleep(interval)]);
      i := i + 1;
    }
    sleepFailed := false;
  }

  /** `twap_order`: the slice-count check, then the slicing loop. */
  method TwapOrder(g: Gateway, at: nat, symbol: string, side: string, total: real,
                   durationMin: real, slices: int, submits: bool)
    returns (out: Result<seq<Ack>>, calls: seq<Call>)
    ensures Run(out, calls) == TwapRun(g, at, symbol, side, total, durationMin, slices, submits)
    ensures out.Ok? ==> |out.value| <= slices
    ensures slices >= 1 && durationMin >= 0.0 ==> |calls| == if submits then 2 * slices else slices
  {
    if slices < 1 {
      return Raise(ValueError(NoSlices)), [];
    }
    var order := SliceOrder(symbol, side, total, slices);
    var interval := Interval(durationMin, slices);
    var acks, sleepFailed;
    acks, calls, sleepFailed := SliceLoop(g, at, order, interval, slices, submits);
    if sleepFailed {
      return Raise(ValueError(NegativeSleep)), calls;
    }
    CollectedIsSuccesses(g, at, submits, slices);
    out := Ok(acks);
  }
}
