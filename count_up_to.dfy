/** The `count_up_to` generator of iterator_generator/generator.py and the
    loop that reads it until a value exceeds 5.

    A suspended generator is an object: `started` says whether the body has
    yet run to its first `yield`, and `count` is its local variable. The
    first resumption runs `count = 1` and yields; every later one runs
    `count += 1` and yields. */
module Generator {

  /** The first k values the generator yields. */
  function Counting(k: nat): (s: seq<int>)
    ensures |s| == k
    decreases k
  {
    if k == 0 then [] else Counting(k - 1) + [k]
  }

  /** The k-th value yielded (counting from 1) is k. */
  lemma {:induction false} CountingAt(k: nat, i: nat)
    requires i < k
    ensures Counting(k)[i] == i + 1
    decreases k
  {
    if i < k - 1 {
      CountingAt(k - 1, i);
    }
  }

  /** The yielded values start at 1, are positive, and each is the one
      before plus 1, so they strictly increase. */
  lemma CountingShape(k: nat)
    ensures k > 0 ==> Counting(k)[0] == 1
    ensures forall i :: 0 <= i < k ==> Counting(k)[i] > 0
    ensures forall i :: 0 < i < k ==> Counting(k)[i] == Counting(k)[i - 1] + 1
    ensures forall i, j :: 0 <= i < j < k ==> Counting(k)[i] < Counting(k)[j]
  {
    forall i | 0 <= i < k ensures Counting(k)[i] == i + 1 {
      CountingAt(k, i);
    }
  }

  class CountUpTo {
    /** Whether the generator body has reached its first `yield`. */
    var started: bool
    /** The generator's local `count`. */
    var count: int

    ghost predicate Valid()
      reads this
    {
      started ==> count >= 1
    }

    /** How many values have been yielded so far, which is also the last
        value yielded. */
    function Yielded(): nat
      reads this
      requires Valid()
    {
      if started then count else 0
    }

    /** Calling count_up_to(): the body has not started. */
    constructor ()
      ensures Valid() && !started && Yielded() == 0
    {
      started := false;
      count := 0;
    }

    /** One resumption of the generator. It never signals exhaustion: the
        `while True` loop has no exit, so stopping is the caller's job. */
    method Next() returns (v: int)
      requires Valid()
      modifies this
      ensures Valid() && started
      ensures v == old(Yielded()) + 1 && Yielded() == v
      ensures old(started) ==> v == old(count) + 1
      ensures !old(started) ==> v == 1
    {
      if !started {
        count := 1;
        started := true;
      } else {
        count := count + 1;
      }
      v := count;
    }
  }

  /** The first `k` values of a fresh generator, drawn one `next` at a time:
      exactly 1, 2, ..., k. */
  method FirstYields(k: nat) returns (vs: seq<int>)
    ensures |vs| == k
    ensures forall i :: 0 <= i < k ==> vs[i] == i + 1
  {
    var gen := new CountUpTo();
    vs := [];
    while |vs| < k
      invariant gen.Valid()
      invariant |vs| <= k
      invariant gen.Yielded() == |vs|
      invariant vs == Counting(|vs|)
    {
      var v := gen.Next();
      vs := vs + [v];
    }
    forall i | 0 <= i < k ensures vs[i] == i + 1 {
      CountingAt(k, i);
    }
  }

  /** The `for`/`break` loop of generator.py: it prints each value up to 5
      and stops on the first that exceeds 5. Returns what it printed and the
      value that ended the loop. */
  method Driver() returns (printed: seq<int>, stoppedAt: int)
    ensures printed == [1, 2, 3, 4, 5]
    ensures stoppedAt == 6
  {
    var gen := new CountUpTo();
    printed := [];
    while true
      invariant gen.Valid()
      invariant gen.Yielded() <= 5
      invariant printed == Counting(gen.Yielded())
      decreases 5 - gen.Yielded()
    {
      var num := gen.Next();
      if num > 5 {
        stoppedAt := num;
        break;
      }
      printed := printed + [num];
    }
  }
}
