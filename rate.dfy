/** golang.org/x/time/rate, as the router uses it: a limiter built with a
    zero limit. With limit 0, Allow() takes one token out of the burst while
    one is left and never puts one back, so the limiter admits `burst` calls
    in its whole lifetime and refuses every later one. */
module Rate {

  /** Limiter.Allow on a zero-rate limiter holding `tokens`: whether the call
      is admitted, and the tokens left after it. */
  function Allowed(tokens: nat): (r: (bool, nat))
    ensures r.0 <==> tokens > 0
    ensures r.0 ==> r.1 + 1 == tokens
    ensures !r.0 ==> r.1 == tokens
  {
    if tokens >= 1 then (true, tokens - 1) else (false, tokens)
  }

  /** The answers of `n` successive Allow() calls on a limiter holding
      `tokens`. */
  function Answers(tokens: nat, n: nat): (r: seq<bool>)
    ensures |r| == n
    decreases n
  {
    if n == 0 then []
    else
      var (ok, left) := Allowed(tokens);
      [ok] + Answers(left, n - 1)
  }

  /** Tokens left after `n` successive Allow() calls. */
  function Left(tokens: nat, n: nat): nat
    decreases n
  {
    if n == 0 then tokens else Left(Allowed(tokens).1, n - 1)
  }

  /** Exactly the first `tokens` calls are admitted: a zero-rate limiter
      never refills. */
  lemma {:induction false} FirstCallsAdmitted(tokens: nat, n: nat)
    ensures forall i :: 0 <= i < n ==> (Answers(tokens, n)[i] <==> i < tokens)
    decreases n
  {
    if n > 0 {
      var left := Allowed(tokens).1;
      FirstCallsAdmitted(left, n - 1);
      var rest := Answers(left, n - 1);
      assert Answers(tokens, n) == [tokens > 0] + rest;
      forall i | 0 <= i < n
        ensures Answers(tokens, n)[i] <==> i < tokens
      {
        if i > 0 {
          assert Answers(tokens, n)[i] == rest[i - 1];
        }
      }
    }
  }

  /** After `n` calls, min(n, tokens) tokens have been spent. */
  lemma {:induction false} TokensSpent(tokens: nat, n: nat)
    ensures Left(tokens, n) == if n <= tokens then tokens - n else 0
    decreases n
  {
    if n > 0 {
      TokensSpent(Allowed(tokens).1, n - 1);
    }
  }

  /** rate.NewLimiter(0, burst). The limiter's own `burst` field is the
      token count: the zero-limit branch of x/time/rate decrements it. */
  class Limiter {
    var burst: nat

    constructor (burst: nat)
      ensures this.burst == burst
    {
      this.burst := burst;
    }

    method Allow() returns (ok: bool)
      modifies this
      ensures (ok, burst) == Allowed(old(burst))
    {
      ok := burst >= 1;
      if ok {
        burst := burst - 1;
      }
    }
  }
}
