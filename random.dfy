/** The random test-data generator. The process-wide `math/rand` source, reseeded
    from the wall clock on every call, is replaced by an oracle: an arbitrary
    function telling which value the k-th draw yields. */
module RandomStrings {

  /** The 62-character alphabet random strings are drawn from. */
  const Runes := "abcdefghijklmnopqrstuvwxyzABCDEFGHIJKLMNOPQRSTUVWXYZ0123456789"

  /** The source of randomness: `draw(k)` is what the k-th draw yields, `count`
      how many draws have been made so far. */
  class Rng {
    const draw: nat -> nat
    var count: nat

    constructor (draw: nat -> nat)
      ensures this.draw == draw && count == 0
    {
      this.draw := draw;
      count := 0;
    }

    /** `rand.Intn(n)`: the next draw, reduced into [0, n). Go panics when n <= 0. */
    method Intn(n: nat) returns (k: nat)
      requires n > 0
      modifies this
      ensures k < n && k == draw(old(count)) % n
      ensures count == old(count) + 1
    {
      k := draw(count) % n;
      count := count + 1;
    }
  }

  /** The string that `n` draws starting at draw number `start` spell out. */
  function RandomChars(draw: nat -> nat, start: nat, n: nat): (s: string)
    ensures |s| == n
    ensures forall i :: 0 <= i < n ==> s[i] in Runes
    decreases n
  {
    if n == 0 then []
    else RandomChars(draw, start, n - 1) + [Runes[draw(start + n - 1) % |Runes|]]
  }

  /** `GenerateRandomString(n)`: fills an n-byte buffer, one draw per byte. */
  method GenerateRandomString(rng: Rng, n: nat) returns (s: string)
    modifies rng
    ensures rng.count == old(rng.count) + n
    ensures s == RandomChars(rng.draw, old(rng.count), n)
  {
    var vec := new char[n];
    for i := 0 to n
      invariant rng.count == old(rng.count) + i
      invariant vec[..i] == RandomChars(rng.draw, old(rng.count), i)
    {
      var k := rng.Intn(|Runes|);
      vec[i] := Runes[k];
      assert vec[..i + 1] == vec[..i] + [vec[i]];
    }
    s := vec[..];
  }
}
