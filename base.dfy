/** Machine integers, account keys, and the outcome types shared by the
    gamma pool instructions. */
module Base {

  const U64_LIMIT: nat := 0x1_0000_0000_0000_0000
  const U128_LIMIT: nat := 0x1_0000_0000_0000_0000_0000_0000_0000_0000

  /** Rust's `u64` and `u128`; every checked operation of the program is
      written out as a comparison against the limit. */
  type U64 = x: nat | x < U64_LIMIT
  type U128 = x: nat | x < U128_LIMIT
  type Byte = x: nat | x < 256

  /** A Solana `Pubkey`: 32 bytes. */
  type Pubkey = k: seq<Byte> | |k| == 32 witness seq(32, _ => 0)

  /** The ordering Rust derives for `[u8; 32]`: lexicographic on the bytes. */
  predicate KeyLess(a: seq<Byte>, b: seq<Byte>)
    requires |a| == |b|
    decreases |a|
  {
    |a| > 0 && (a[0] < b[0] || (a[0] == b[0] && KeyLess(a[1..], b[1..])))
  }

  /** No key precedes itself, and of two keys at most one precedes the other. */
  lemma {:induction false} KeyLessAsymmetric(a: seq<Byte>, b: seq<Byte>)
    requires |a| == |b|
    ensures KeyLess(a, b) ==> !KeyLess(b, a)
    decreases |a|
  {
    if |a| > 0 && a[0] == b[0] {
      KeyLessAsymmetric(a[1..], b[1..]);
    }
  }

  /** Two different keys are always ordered one way or the other. */
  lemma {:induction false} KeyLessTotal(a: seq<Byte>, b: seq<Byte>)
    requires |a| == |b| && a != b
    ensures KeyLess(a, b) || KeyLess(b, a)
    decreases |a|
  {
    assert |a| > 0;
    if a[0] == b[0] {
      assert a == [a[0]] + a[1..] && b == [b[0]] + b[1..];
      KeyLessTotal(a[1..], b[1..]);
    }
  }

  /** The program's error codes (`GammaError`) together with the Anchor
      framework errors that its `require_*!` macros and account constraints
      raise. */
  datatype Error =
    | NotApproved
    | InvalidVault
    | InvalidOwner
    | InvalidOpenTime
    | NotSupportMint
    | ExceededSlippage
    | ZeroTradingTokens
    | MathOverflow
    | MathError
    // Anchor's require_gt!, require_gte! and require_eq! without a custom error
    | RequireGtViolated
    | RequireGteViolated
    | RequireEqViolated
    // an Anchor `constraint = …` on an account that does not hold
    | ConstraintRaw
    // an unchecked `+` on u64 that overflows aborts the program
    | ArithmeticPanic
    // an error raised inside a collaborator whose code is not modelled
    | Collaborator(code: nat)

  datatype Option<+T> = None | Some(value: T)

  /** Rust's `Result<T>` with the program's error type; usable with `:-`. */
  datatype Result<+T> = Ok(value: T) | Err(error: Error) {
    predicate IsFailure() { Err? }

    function PropagateFailure<U>(): Result<U>
      requires Err?
    {
      Err(error)
    }

    function Extract(): T
      requires Ok?
    {
      value
    }
  }
}
