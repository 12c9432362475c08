// The queue between a run's producers and the reader of its fact stream
// (message-bridge-openclaw/src/sdk/async-queue.ts).
module AsyncQueue {
  import opened Prelude

  // What the promise of one `next()` call settles with.
  datatype Answer<T, E> = Value(value: T) | Done | Rejected(error: E)

  datatype Ending<E> = Open | Closed | Failed(error: E)

  // `Fail(None)` is fail(undefined).
  datatype Call<T, E> = Push(value: T) | Next | Close | Fail(error: Option<E>)

  /** The plain FIFO the queue stands for: what was taken in, how many reads were asked for, how it ended. */
  datatype Fifo<T, E> = Fifo(accepted: seq<T>, asked: nat, ending: Ending<E>)
  {
    // The i-th read gets the i-th value; reads past the last value wait for it, or learn the ending.
    function AnswerTo(i: nat): Option<Answer<T, E>> {
      if i < |accepted| then Some(Value(accepted[i]))
      else match ending
        case Open => None
        case Closed => Some(Done)
        case Failed(e) => Some(Rejected(e))
    }

    function After(call: Call<T, E>): Fifo<T, E> {
      match call
      case Push(v) => if ending.Open? then this.(accepted := accepted + [v]) else this
      case Next => this.(asked := asked + 1)
      case Close => if ending.Open? then this.(ending := Closed) else this
      case Fail(e) => if ending.Open? && e.Some? then this.(ending := Failed(e.value)) else this
    }
  }

  function Run<T, E>(history: seq<Call<T, E>>): Fifo<T, E> {
    if history == [] then Fifo([], 0, Open)
    else Run(history[..|history| - 1]).After(history[|history| - 1])
  }

  // ---- What the FIFO means for a whole history ----

  predicate Ends<T, E>(call: Call<T, E>) {
    call.Close? || (call.Fail? && call.error.Some?)
  }

  // The position of the first call that ends the stream.
  function FirstEnd<T, E>(history: seq<Call<T, E>>): nat {
    if history == [] || Ends(history[0]) then 0 else 1 + FirstEnd(history[1..])
  }

  function Pushed<T, E>(history: seq<Call<T, E>>): seq<T> {
    if history == [] then []
    else
      Pushed(history[..|history| - 1])
      + (if history[|history| - 1].Push? then [history[|history| - 1].value] else [])
  }

  function ProducerSide<T, E>(history: seq<Call<T, E>>): seq<Call<T, E>> {
    if history == [] then []
    else
      ProducerSide(history[..|history| - 1])
      + (if history[|history| - 1].Next? then [] else [history[|history| - 1]])
  }

  function Reads<T, E>(history: seq<Call<T, E>>): nat {
    if history == [] then 0 else Reads(history[..|history| - 1]) + (if history[|history| - 1].Next? then 1 else 0)
  }

  lemma {:induction false} FirstEndAppend<T, E>(history: seq<Call<T, E>>, call: Call<T, E>)
    ensures FirstEnd(history) <= |history|
    ensures FirstEnd(history + [call])
         == if FirstEnd(history) < |history| || Ends(call) then FirstEnd(history) else |history| + 1
  {
    if history == [] {
      assert [call][1..] == [];
    } else {
      assert (history + [call])[1..] == history[1..] + [call];
      FirstEndAppend(history[1..], call);
    }
  }

  lemma {:induction false} FirstEndIsFirst<T, E>(history: seq<Call<T, E>>)
    ensures FirstEnd(history) <= |history|
    ensures FirstEnd(history) < |history| ==> Ends(history[FirstEnd(history)])
  {
    if history != [] && !Ends(history[0]) {
      FirstEndIsFirst(history[1..]);
    }
  }

  /** Exactly the values pushed before the first close or effective fail are taken in, in push order,
      and that first call alone decides the ending; later pushes, closes and fails change nothing. */
  lemma {:induction false} TakesInPushesBeforeTheEnd<T, E>(history: seq<Call<T, E>>)
    ensures FirstEnd(history) <= |history|
    ensures Run(history).accepted == Pushed(history[..FirstEnd(history)])
    ensures Run(history).ending ==
            if FirstEnd(history) == |history| then Open
            else if history[FirstEnd(history)].Fail? && history[FirstEnd(history)].error.Some?
              then Failed(history[FirstEnd(history)].error.value)
              else Closed
  {
    if history != [] {
      var front, last := history[..|history| - 1], history[|history| - 1];
      assert history == front + [last];
      TakesInPushesBeforeTheEnd(front);
      FirstEndAppend(front, last);
      FirstEndIsFirst(front);
      var k := FirstEnd(front);
      assert history[..k] == front[..k];
      if k == |front| {
        assert front[..k] == front;
        assert history[..|history|] == history;
      }
    }
  }

  lemma RunAppend<T, E>(history: seq<Call<T, E>>, call: Call<T, E>)
    ensures Run(history + [call]) == Run(history).After(call)
  {
    assert (history + [call])[..|history|] == history;
  }

  // Reads only count; everything else is the producer's doing.
  lemma AfterBySide<T, E>(fifo: Fifo<T, E>, asked: nat, call: Call<T, E>)
    ensures call.Next? ==> fifo.(asked := asked).After(call) == fifo.(asked := asked + 1)
    ensures !call.Next? ==> fifo.(asked := asked).After(call) == fifo.After(call).(asked := asked)
  {
  }

  lemma {:induction false} SidesDecide<T, E>(history: seq<Call<T, E>>)
    ensures Run(history) == Run(ProducerSide(history)).(asked := Reads(history))
  {
    if history != [] {
      var front, last := history[..|history| - 1], history[|history| - 1];
      SidesDecide(front);
      var side := ProducerSide(front);
      AfterBySide(Run(side), Reads(front), last);
      if last.Next? {
        assert ProducerSide(history) == side;
      } else {
        RunAppend(side, last);
      }
    }
  }

  /** What each read gets does not depend on how reads interleave with the producer's calls. */
  lemma InterleavingDoesNotMatter<T, E>(history: seq<Call<T, E>>, other: seq<Call<T, E>>, i: nat)
    requires ProducerSide(history) == ProducerSide(other)
    ensures Run(history).AnswerTo(i) == Run(other).AnswerTo(i)
    ensures Reads(history) == Reads(other) ==> Run(history) == Run(other)
  {
    SidesDecide(history);
    SidesDecide(other);
  }

  /** A settled read keeps its answer whatever is called afterwards. */
  lemma {:induction false} AnswersAreFinal<T, E>(history: seq<Call<T, E>>, later: seq<Call<T, E>>, i: nat)
    requires Run(history).AnswerTo(i).Some?
    ensures Run(history + later).AnswerTo(i) == Run(history).AnswerTo(i)
    decreases |later|
  {
    if later == [] {
      assert history + later == history;
    } else {
      var front, last := later[..|later| - 1], later[|later| - 1];
      AnswersAreFinal(history, front, i);
      var all := history + later;
      assert all[..|all| - 1] == history + front && all[|all| - 1] == last;
    }
  }

  /** Once the stream has ended every read that was or will be asked is settled: first all values, then the ending. */
  lemma {:induction false} EndedStreamAnswersEveryRead<T, E>(history: seq<Call<T, E>>, later: seq<Call<T, E>>, i: nat)
    requires FirstEnd(history) < |history|
    ensures Run(history + later).AnswerTo(i) == Run(history).AnswerTo(i)
    ensures Run(history).AnswerTo(i).Some?
    ensures Run(history).AnswerTo(i).value.Value? <==> i < |Pushed(history[..FirstEnd(history)])|
  {
    TakesInPushesBeforeTheEnd(history);
    AnswersAreFinal(history, later, i);
  }

  // ---- The queue itself ----

  class AsyncQueueController<T, E> {
    var values: seq<T>
    // The pending reads, by call number.
    var waiters: seq<nat>
    var closed: bool
    var failure: Option<E>
    // The promise of each `next()` call so far; None while it is pending.
    var answers: seq<Option<Answer<T, E>>>
    // The FIFO this queue stands for.
    ghost var fifo: Fifo<T, E>

    ghost predicate WaitersAreLast()
      reads this
    {
      |waiters| <= |answers|
      && (forall j :: 0 <= j < |waiters| ==> waiters[j] == |answers| - |waiters| + j)
      && (forall i :: |answers| - |waiters| <= i < |answers| ==> answers[i].None?)
    }

    ghost predicate Valid()
      reads this
    {
      && WaitersAreLast()
      && |answers| == fifo.asked
      && (forall i :: 0 <= i < |answers| ==> answers[i] == fifo.AnswerTo(i))
      && values == (if fifo.asked < |fifo.accepted| then fifo.accepted[fifo.asked..] else [])
      && |waiters| == (if fifo.ending.Open? && |fifo.accepted| < fifo.asked then fifo.asked - |fifo.accepted| else 0)
      && closed == fifo.ending.Closed?
      && failure == (if fifo.ending.Failed? then Some(fifo.ending.error) else None)
    }

    constructor ()
      ensures Valid() && fifo == Fifo([], 0, Open)
    {
      values, waiters, closed, failure, answers := [], [], false, None, [];
      fifo := Fifo([], 0, Open);
    }

    function Ended(): Option<Answer<T, E>>
      reads this
    {
      if failure.Some? then Some(Rejected(failure.value)) else if closed then Some(Done) else None
    }

    method Settle(call: nat, answer: Answer<T, E>)
      requires call < |answers| && answers[call].None?
      modifies this`answers
      ensures answers == old(answers)[call := Some(answer)]
    {
      answers := answers[call := Some(answer)];
    }

    // Hands queued values to waiting reads, oldest to oldest.
    method ServeWaiters() returns (ghost served: nat)
      requires WaitersAreLast()
      modifies this`values, this`waiters, this`answers
      ensures WaitersAreLast() && |answers| == |old(answers)|
      ensures served == if |old(values)| < |old(waiters)| then |old(values)| else |old(waiters)|
      ensures values == old(values)[served..] && |waiters| == |old(waiters)| - served
      ensures var base := |old(answers)| - |old(waiters)|;
              && (forall i :: 0 <= i < base ==> answers[i] == old(answers)[i])
              && (forall i :: base <= i < base + served ==> answers[i] == Some(Value(old(values)[i - base])))
    {
      served := 0;
      ghost var base := |answers| - |waiters|;
      while |waiters| > 0 && |values| > 0
        invariant WaitersAreLast() && |answers| == |old(answers)|
        invariant served <= |old(values)| && served <= |old(waiters)|
        invariant values == old(values)[served..] && |waiters| == |old(waiters)| - served
        invariant (forall i :: 0 <= i < base ==> answers[i] == old(answers)[i])
        invariant forall i :: base <= i < base + served ==> answers[i] == Some(Value(old(values)[i - base]))
        decreases |waiters|
      {
        var waiter := waiters[0];
        var value := values[0];
        waiters, values := waiters[1..], values[1..];
        Settle(waiter, Value(value));
        served := served + 1;
      }
    }

    // Tells every waiting read how the stream ended.
    method SettleWaiters(ending: Answer<T, E>)
      requires WaitersAreLast()
      modifies this`waiters, this`answers
      ensures WaitersAreLast() && |answers| == |old(answers)| && waiters == []
      ensures forall i :: 0 <= i < |answers| - |old(waiters)| ==> answers[i] == old(answers)[i]
      ensures forall i :: |answers| - |old(waiters)| <= i < |answers| ==> answers[i] == Some(ending)
    {
      ghost var base := |answers| - |waiters|;
      while |waiters| > 0
        invariant WaitersAreLast() && |answers| == |old(answers)| && |waiters| <= |old(waiters)|
        invariant (forall i :: 0 <= i < base ==> answers[i] == old(answers)[i])
        invariant forall i :: base <= i < |answers| - |waiters| ==> answers[i] == Some(ending)
        decreases |waiters|
      {
        var waiter := waiters[0];
        waiters := waiters[1..];
        Settle(waiter, ending);
      }
    }

    method Flush()
      requires WaitersAreLast()
      modifies this`values, this`waiters, this`answers
      ensures WaitersAreLast() && |answers| == |old(answers)|
      ensures var k := if |old(values)| < |old(waiters)| then |old(values)| else |old(waiters)|;
              var base := |old(answers)| - |old(waiters)|;
              && values == old(values)[k..]
              && |waiters| == (if Ended().Some? then 0 else |old(waiters)| - k)
              && (forall i :: 0 <= i < base ==> answers[i] == old(answers)[i])
              && (forall i :: base <= i < base + k ==> answers[i] == Some(Value(old(values)[i - base])))
              && (forall i :: base + k <= i < |answers| ==> answers[i] == Ended())
    {
      ghost var served := ServeWaiters();
      if failure.Some? {
        SettleWaiters(Rejected(failure.value));
      } else if closed {
        SettleWaiters(Done);
      }
    }

    // Returns the number of the read, under which its promise is kept.
    method Next() returns (call: nat)
      requires Valid()
      modifies this
      ensures Valid() && fifo == old(fifo).After(Call.Next)
      ensures call == |old(answers)| && call < |answers|
    {
      call := |answers|;
      if |values| > 0 {
        answers := answers + [Some(Value(values[0]))];
        values := values[1..];
      } else if failure.Some? {
        answers := answers + [Some(Rejected(failure.value))];
      } else if closed {
        answers := answers + [Some(Done)];
      } else {
        answers := answers + [None];
        waiters := waiters + [call];
      }
      fifo := fifo.After(Call.Next);
    }

    method Push(value: T)
      requires Valid()
      modifies this
      ensures Valid() && fifo == old(fifo).After(Call.Push(value))
    {
      fifo := fifo.After(Call.Push(value));
      if closed || failure.Some? {
        return;
      }
      values := values + [value];
      Flush();
    }

    method Close()
      requires Valid()
      modifies this
      ensures Valid() && fifo == old(fifo).After(Call.Close)
    {
      fifo := fifo.After(Call.Close);
      if failure.Some? {
        return;
      }
      closed := true;
      Flush();
    }

    method Fail(error: Option<E>)
      requires Valid()
      modifies this
      ensures Valid() && fifo == old(fifo).After(Call.Fail(error))
    {
      fifo := fifo.After(Call.Fail(error));
      if closed || failure.Some? {
        return;
      }
      failure := error;
      Flush();
    }

    /** Nothing is lost or duplicated, and values and waiters are never both non-empty:
        what the reads received, followed by what is queued, is what was taken in. */
    lemma {:induction false} DeliveredThenQueued()
      requires Valid()
      ensures var accepted := fifo.accepted;
              && (values == [] || waiters == [])
              && |values| <= |accepted|
              && accepted[|accepted| - |values|..] == values
              && (forall i :: 0 <= i < |accepted| - |values| ==>
                  i < |answers| && answers[i] == Some(Value(accepted[i])))
              && (forall i :: |accepted| - |values| <= i < |answers| ==> answers[i].None? || !answers[i].value.Value?)
    {
    }
  }

  /** Any interleaving of calls, driven through the queue, answers every read as the plain FIFO does. */
  method Drive<T, E>(calls: seq<Call<T, E>>) returns (answers: seq<Option<Answer<T, E>>>)
    ensures |answers| == Reads(calls)
    ensures forall i :: 0 <= i < |answers| ==> answers[i] == Run(calls).AnswerTo(i)
  {
    var queue := new AsyncQueueController<T, E>();
    var k := 0;
    while k < |calls|
      invariant 0 <= k <= |calls| && queue.Valid() && fresh(queue)
      invariant queue.fifo == Run(calls[..k])
    {
      match calls[k] {
        case Push(v) => queue.Push(v);
        case Next => var _ := queue.Next();
        case Close => queue.Close();
        case Fail(e) => queue.Fail(e);
      }
      RunAppend(calls[..k], calls[k]);
      k := k + 1;
      assert calls[..k] == calls[..k - 1] + [calls[k - 1]];
    }
    assert calls[..k] == calls;
    SidesDecide(calls);
    answers := queue.answers;
  }
}
