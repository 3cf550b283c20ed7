/** The RemoteControl iterator of iterator_generator/iteration.py: a cursor
    over a fixed list of channels that moves two places per call. The list
    may be any list; the source's own is `Channels`. */
module Iteration {

  datatype Option<T> = None | Some(value: T)

  /** The list a RemoteControl is created with. */
  const Channels: seq<string> := ["HBO", "CNN", "ABC", "ESPN"]

  /** What __next__ yields when the cursor stands at `idx` before the call:
      the cursor moves to idx + 2, and the call stops once that passes the
      end of the list. */
  function NextValue(channels: seq<string>, idx: nat): Option<string> {
    if idx + 2 > |channels| then None else Some(channels[idx + 1])
  }

  /** The results of `calls` successive __next__ calls from cursor `idx`. */
  function Results(channels: seq<string>, idx: nat, calls: nat): (rs: seq<Option<string>>)
    ensures |rs| == calls
    decreases calls
  {
    if calls == 0 then [] else [NextValue(channels, idx)] + Results(channels, idx + 2, calls - 1)
  }

  /** How many of the results carry a value. */
  function Successes(rs: seq<Option<string>>): nat {
    if rs == [] then 0 else (if rs[0].Some? then 1 else 0) + Successes(rs[1..])
  }

  function Min(a: int, b: int): int {
    if a <= b then a else b
  }

  /** The k-th call after the cursor stood at `idx` sees the cursor at idx + 2k. */
  lemma {:induction false} ResultAt(channels: seq<string>, idx: nat, calls: nat, k: nat)
    requires k < calls
    ensures Results(channels, idx, calls)[k] == NextValue(channels, idx + 2 * k)
    decreases calls
  {
    if k > 0 {
      ResultAt(channels, idx + 2, calls - 1, k - 1);
    }
  }

  /** From a fresh RemoteControl, call number k + 1 yields channels[2(k+1) - 1]
      when 2(k+1) is within the length of the list, and stops otherwise. */
  lemma FreshResult(channels: seq<string>, calls: nat, k: nat)
    requires k < calls
    ensures Results(channels, 0, calls)[k] ==
            if 2 * (k + 1) <= |channels| then Some(channels[2 * (k + 1) - 1]) else None
  {
    ResultAt(channels, 0, calls, k);
  }

  /** Stopping is final: the cursor only grows, so once a call stops every
      later call stops too. */
  lemma StopIsFinal(channels: seq<string>, idx: nat, calls: nat, k: nat, later: nat)
    requires k <= later < calls
    requires Results(channels, idx, calls)[k].None?
    ensures Results(channels, idx, calls)[later].None?
  {
    ResultAt(channels, idx, calls, k);
    ResultAt(channels, idx, calls, later);
  }

  /** Of `calls` calls made with the cursor starting at 2m, exactly as many
      yield a value as there are pairs of the list left past position 2m. */
  lemma {:induction false} SuccessesFrom(channels: seq<string>, m: nat, calls: nat)
    ensures Successes(Results(channels, 2 * m, calls)) ==
            if |channels| / 2 <= m then 0 else Min(calls, |channels| / 2 - m)
    decreases calls
  {
    if calls > 0 {
      var rs := Results(channels, 2 * m, calls);
      assert rs[0] == NextValue(channels, 2 * m);
      assert rs[1..] == Results(channels, 2 * (m + 1), calls - 1);
      SuccessesFrom(channels, m + 1, calls - 1);
    }
  }

  /** A fresh RemoteControl yields a value on exactly floor(n / 2) calls,
      for a list of length n. */
  lemma SuccessCount(channels: seq<string>, calls: nat)
    ensures Successes(Results(channels, 0, calls)) == Min(calls, |channels| / 2)
  {
    SuccessesFrom(channels, 0, calls);
  }

  /** For the source's list: "CNN", then "ESPN", then a stop. */
  lemma ChannelsResults()
    ensures Results(Channels, 0, 3) == [Some("CNN"), Some("ESPN"), None]
  {
  }

  class RemoteControl {
    /** Never reassigned or mutated by any operation. */
    const channels: seq<string>
    /** The cursor; it starts at 0 and only grows. */
    var idx: nat

    /** RemoteControl.__init__ */
    constructor ()
      ensures channels == Channels && idx == 0
    {
      channels := Channels;
      idx := 0;
    }

    /** A RemoteControl over any list, with the same fresh cursor. */
    constructor Over(channels: seq<string>)
      ensures this.channels == channels && idx == 0
    {
      this.channels := channels;
      idx := 0;
    }

    /** RemoteControl.__iter__: the object is its own iterator, so iterating
        shares the cursor. */
    method Iter() returns (r: RemoteControl)
      ensures r == this
    {
      r := this;
    }

    /** RemoteControl.__next__: the cursor moves by 2 on every call; the call
        stops (StopIteration) when the cursor has passed the end of the list,
        and otherwise yields the channel just before the cursor. */
    method Next() returns (v: Option<string>)
      modifies this
      ensures idx == old(idx) + 2
      ensures v.None? <==> idx > |channels|
      ensures v.Some? ==> 0 <= idx - 1 < |channels| && v.value == channels[idx - 1]
      ensures v == NextValue(channels, old(idx))
    {
      idx := idx + 2;
      if idx > |channels| {
        return None;
      }
      return Some(channels[idx - 1]);
    }
  }

  /** `calls` successive `next` calls on a remote control, from wherever its
      cursor stands: the results are exactly `Results`. */
  method CallNext(r: RemoteControl, calls: nat) returns (vs: seq<Option<string>>)
    modifies r
    ensures vs == Results(r.channels, old(r.idx), calls)
    ensures r.idx == old(r.idx) + 2 * calls
  {
    vs := [];
    var i := 0;
    while i < calls
      invariant 0 <= i <= calls
      invariant r.idx == old(r.idx) + 2 * i
      invariant vs + Results(r.channels, r.idx, calls - i) == Results(r.channels, old(r.idx), calls)
    {
      ghost var at := r.idx;
      var v := r.Next();
      assert Results(r.channels, at, calls - i) == [v] + Results(r.channels, r.idx, calls - i - 1);
      vs := vs + [v];
      i := i + 1;
    }
  }

  /** `calls` calls on a fresh remote control over any list: call k yields
      channels[2k - 1] while 2k is within the list, then every call stops. */
  method FreshCalls(channels: seq<string>, calls: nat) returns (vs: seq<Option<string>>)
    ensures |vs| == calls
    ensures forall k :: 0 <= k < calls ==>
              vs[k] == if 2 * (k + 1) <= |channels| then Some(channels[2 * (k + 1) - 1]) else None
    ensures Successes(vs) == Min(calls, |channels| / 2)
  {
    var r := new RemoteControl.Over(channels);
    vs := CallNext(r, calls);
    forall k | 0 <= k < calls
      ensures vs[k] == if 2 * (k + 1) <= |channels| then Some(channels[2 * (k + 1) - 1]) else None
    {
      FreshResult(channels, calls, k);
    }
    SuccessCount(channels, calls);
  }

  /** The script at the bottom of iteration.py: two `next` calls on the
      iterator of a fresh RemoteControl. */
  method Driver() returns (first: Option<string>, second: Option<string>)
    ensures first == Some("CNN") && second == Some("ESPN")
  {
    var r := new RemoteControl();
    var itr := r.Iter();
    first := itr.Next();
    second := itr.Next();
  }
}
