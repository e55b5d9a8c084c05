/** Choice of the texture resolution from the command line: the single argument, read as a
    32-bit unsigned number, when it is a power of two, and 16 otherwise. */
module Resolution {
  const DefaultResolution: nat := 16

  const U32: int := 0x1_0000_0000

  /** A signed integer stored into a 32-bit unsigned variable. */
  function ToUnsigned(v: int): (r: nat)
    ensures r < U32
    ensures 0 <= v < U32 ==> r == v
    ensures -U32 <= v < 0 ==> r == v + U32
  {
    v % U32
  }

  /** Bitwise and of two naturals, bit by bit from the lowest. */
  function BitAnd(a: nat, b: nat): (r: nat)
    ensures r <= a && r <= b
  {
    if a == 0 || b == 0 then 0
    else 2 * BitAnd(a / 2, b / 2) + (if a % 2 == 1 && b % 2 == 1 then 1 else 0)
  }

  /** `n` is 1, 2, 4, 8, ... */
  predicate IsPowerOfTwo(n: nat)
  {
    n == 1 || (n > 1 && n % 2 == 0 && IsPowerOfTwo(n / 2))
  }

  /** A number and itself share all their bits. */
  lemma {:induction false} BitAndSelf(a: nat)
    ensures BitAnd(a, a) == a
  {
    if a > 0 {
      BitAndSelf(a / 2);
    }
  }

  /** The test `n & (n - 1) == 0` recognises exactly the powers of two among positive
      numbers. */
  lemma {:induction false} PowerOfTwoTest(n: nat)
    requires n > 0
    ensures BitAnd(n, n - 1) == 0 <==> IsPowerOfTwo(n)
  {
    if n > 1 {
      if n % 2 == 0 {
        assert (n - 1) / 2 == n / 2 - 1;
        PowerOfTwoTest(n / 2);
      } else {
        assert (n - 1) / 2 == n / 2;
        BitAndSelf(n / 2);
      }
    }
  }

  /** The texture resolution: `argument` (the value `atoi` gives for the single argument)
      stored as an unsigned number when there is exactly one argument, and the default
      when that is 0 or not a power of two. */
  function ChooseResolution(argc: int, argument: int): (r: nat)
    ensures r > 0 && IsPowerOfTwo(r) && r < U32
    ensures argc == 2 && ToUnsigned(argument) > 0 && IsPowerOfTwo(ToUnsigned(argument)) ==> r == ToUnsigned(argument)
    ensures argc != 2 || ToUnsigned(argument) == 0 || !IsPowerOfTwo(ToUnsigned(argument)) ==> r == DefaultResolution
  {
    var resolution := if argc == 2 then ToUnsigned(argument) else 0;
    var resolutionIsPowerOfTwo := resolution > 0 && BitAnd(resolution, resolution - 1) == 0;
    DefaultPowerOfTwo();
    if resolution > 0 then PowerOfTwoTest(resolution); (if resolutionIsPowerOfTwo then resolution else DefaultResolution)
    else DefaultResolution
  }

  /** The default resolution is itself a power of two. */
  lemma DefaultPowerOfTwo()
    ensures IsPowerOfTwo(DefaultResolution)
  {
  }
}
