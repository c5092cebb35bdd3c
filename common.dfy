/** Small shared vocabulary: optional values, duplicate-free lists used as
    sets (badges, purchased items, completed modules) and the rounding that
    the games apply to a ratio of correct answers. */
module Common {

  datatype Option<T> = None | Some(value: T)

  /** The outcome of an operation that may be refused with an error. */
  datatype Result<T, E> = Ok(value: T) | Err(error: E)

  /** The three-step flow shared by most mini-games. */
  datatype Phase = Intro | Playing | Summary

  /** A list in which no element occurs twice. */
  predicate NoDup<T(==)>(s: seq<T>) {
    forall i, j | 0 <= i < j < |s| :: s[i] != s[j]
  }

  /** The `includes`-then-append idiom the code uses to keep a list
      duplicate-free (`$addToSet` on the server, `addBadge` in the store,
      `if (!completed.includes(k)) completed.push(k)` in the games). */
  function SetInsert<T(==)>(s: seq<T>, x: T): (r: seq<T>)
    ensures x in r
    ensures x in s ==> r == s
    ensures x !in s ==> |r| == |s| + 1 && r[..|s|] == s && r[|s|] == x
    ensures NoDup(s) ==> NoDup(r)
  {
    if x in s then s else s + [x]
  }

  /** Inserting an element already inserted changes nothing. */
  lemma SetInsertIdempotent<T>(s: seq<T>, x: T)
    ensures SetInsert(SetInsert(s, x), x) == SetInsert(s, x)
  {
  }

  /** `Math.round(n / d * 100)` for a non-negative ratio: the integer nearest
      to 100·n/d, halves rounded up. */
  function RoundPercent(n: nat, d: nat): (r: nat)
    requires d > 0
    ensures 2 * d * r <= 200 * n + d < 2 * d * r + 2 * d
    ensures n <= d ==> r <= 100
    ensures n == 0 ==> r == 0
    ensures n == d ==> r == 100
  {
    RoundPercentFacts(n, d);
    (200 * n + d) / (2 * d)
  }

  lemma RoundPercentFacts(n: nat, d: nat)
    requires d > 0
    ensures var q := (200 * n + d) / (2 * d);
      && 2 * d * q <= 200 * n + d < 2 * d * q + 2 * d
      && (n <= d ==> q <= 100)
      && (n == d ==> q == 100)
  {
    var q := (200 * n + d) / (2 * d);
    DivBounds(200 * n + d, 2 * d);
    if n <= d {
      MulLeMono(n, d, 200);
      MulLtCancel(q, 101, 2 * d, 200 * n + d);
    }
    if n == d {
      MulLtCancel(100, q + 1, 2 * d, 200 * n + d);
    }
  }

  lemma DivBounds(a: nat, b: nat)
    requires b > 0
    ensures b * (a / b) <= a < b * (a / b) + b
  {
  }

  lemma MulLeMono(x: nat, y: nat, k: nat)
    requires x <= y
    ensures k * x <= k * y
  {
  }

  /** If b·q <= a < b·m then q < m. */
  lemma MulLtCancel(q: int, m: int, b: nat, a: int)
    requires b > 0
    requires b * q <= a < b * m
    ensures q < m
  {
    if q >= m {
      assert b * q >= b * m by { MulLeMonoInt(m, q, b); }
    }
  }

  lemma MulLeMonoInt(x: int, y: int, k: nat)
    requires x <= y
    ensures k * x <= k * y
  {
  }
}
