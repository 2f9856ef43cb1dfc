// pkg/graceful/graceful.go: the capped geometric backoff and its per-key counters.
module Backoff {
  // Durations are whole units; the factor is the fraction num/den, and each product is cut to
  // a whole unit as the conversion to time.Duration does.
  datatype Options = Options(base: int, max: int, num: nat, den: nat)

  const DEFAULT_NUM := 2
  const DEFAULT_DEN := 1

  // WithBackoffFactor turns a factor below one into the default.
  function WithFactor(o: Options, num: nat, den: nat): (r: Options)
    requires den > 0
    ensures r.num >= r.den > 0 && r.base == o.base && r.max == o.max
    ensures if num >= den then r.num == num && r.den == den else r.num == 2 * r.den
  {
    if num < den then o.(num := DEFAULT_NUM, den := DEFAULT_DEN) else o.(num := num, den := den)
  }

  predicate Sound(o: Options) {
    o.num >= o.den > 0
  }

  // Division that cuts toward zero.
  function Cut(n: int, d: int): int
    requires d > 0
  {
    if n >= 0 then n / d else -(-n / d)
  }

  function Scale(o: Options, d: int): int
    requires o.den > 0
  {
    Cut(d * o.num, o.den)
  }

  // n more rounds of the loop from delay d.
  function From(o: Options, d: int, n: nat): int
    requires o.den > 0
    decreases n
  {
    if n == 0 then d
    else if Scale(o, d) > o.max then o.max
    else From(o, Scale(o, d), n - 1)
  }

  function Delay(o: Options, count: nat): int
    requires o.den > 0
  {
    From(o, o.base, if count == 0 then 0 else count - 1)
  }

  method CalculateBackoff(o: Options, count: nat) returns (d: int)
    requires o.den > 0
    ensures d == Delay(o, count)
  {
    d := o.base;
    var i := 1;
    while i < count
      invariant 1 <= i && (i <= count || count == 0)
      invariant Delay(o, count) == From(o, d, if i < count then count - i else 0)
    {
      d := Scale(o, d);
      if d > o.max {
        return o.max;
      }
      i := i + 1;
    }
  }

  // ---- Scaling ------------------------------------------------------------------------------------

  lemma {:induction false} Spread(x: int, y: int, d: nat)
    requires x < y
    ensures x * d + d <= y * d
  {
    if d > 0 {
      Spread(x, y, d - 1);
      assert x * d == x * (d - 1) + x && y * d == y * (d - 1) + y;
    }
  }

  lemma ScaleIs(o: Options, a: nat)
    requires Sound(o)
    ensures Scale(o, a) * o.den <= a * o.num < Scale(o, a) * o.den + o.den
    ensures a * o.den <= a * o.num
  {
    var n := a * o.num;
    assert n == (n / o.den) * o.den + n % o.den;
    assert a * o.num - a * o.den == a * (o.num - o.den);
  }

  // A step never shrinks a delay, and it grows longer delays by at least as much.
  lemma ScaleGrows(o: Options, a: nat, b: nat)
    requires Sound(o) && a <= b
    ensures a <= Scale(o, a) && b <= Scale(o, b)
    ensures Scale(o, a) - a <= Scale(o, b) - b
  {
    ScaleIs(o, a);
    ScaleIs(o, b);
    var s, t := Scale(o, a), Scale(o, b);
    ScaleIs(o, b - a);
    assert (s + (b - a)) * o.den == s * o.den + (b - a) * o.den;
    assert b * o.num == a * o.num + (b - a) * o.num;
    if s < a {
      Spread(s, a, o.den);
    }
    if t < s + (b - a) {
      Spread(t, s + (b - a), o.den);
    }
  }

  // ---- The delays of one key ------------------------------------------------------------------------

  // What the theorems ask of the configuration: the first delay is not capped by the code.
  predicate Capped(o: Options) {
    Sound(o) && 0 <= o.base <= o.max
  }

  lemma {:induction false} FromBounds(o: Options, d: nat, n: nat)
    requires Sound(o) && d <= o.max
    ensures d <= From(o, d, n) <= o.max
    ensures From(o, d, n) <= From(o, d, n + 1)
    ensures From(o, d, n) == o.max ==> From(o, d, n + 1) == o.max
    decreases n
  {
    ScaleGrows(o, d, d);
    if n > 0 && Scale(o, d) <= o.max {
      FromBounds(o, Scale(o, d), n - 1);
    }
  }

  // Longer streaks wait at least as long, between base and max, and stay at max once there.
  lemma DelayLaws(o: Options, k: nat)
    requires Capped(o)
    ensures o.base <= Delay(o, k) <= o.max
    ensures Delay(o, k) <= Delay(o, k + 1)
    ensures Delay(o, k) == o.max ==> Delay(o, k + 1) == o.max
  {
    FromBounds(o, o.base, if k == 0 then 0 else k - 1);
  }

  // The delays keep under max and never fall if and only if the first one is under max: the
  // loop compares only what it has multiplied.
  lemma CapIffBaseCapped(o: Options)
    requires Sound(o) && 0 <= o.base
    ensures o.base <= o.max <==> forall k: nat :: Delay(o, k) <= o.max
    ensures o.base <= o.max <==> forall k: nat :: Delay(o, k) <= Delay(o, k + 1)
  {
    if o.base <= o.max {
      forall k: nat ensures Delay(o, k) <= o.max && Delay(o, k) <= Delay(o, k + 1) {
        DelayLaws(o, k);
      }
    } else {
      ScaleGrows(o, o.base, o.base);
      assert Delay(o, 1) == o.base;
      assert Delay(o, 1 + 1) == o.max;
    }
  }

  function Pow(f: nat, n: nat): nat {
    if n == 0 then 1 else f * Pow(f, n - 1)
  }

  function Min(a: int, b: int): int {
    if a <= b then a else b
  }

  lemma PowPositive(f: nat, n: nat)
    requires f > 0
    ensures Pow(f, n) >= 1
  {
    if n > 0 {
      PowPositive(f, n - 1);
    }
  }

  lemma PowStep(d: nat, f: nat, n: nat)
    requires n > 0 && f > 0
    ensures d * Pow(f, n) == (d * f) * Pow(f, n - 1)
    ensures d * Pow(f, n) >= d * f
  {
    var p := Pow(f, n - 1);
    PowPositive(f, n - 1);
    assert d * (f * p) == (d * f) * p;
    assert (d * f) * p == d * f + (d * f) * (p - 1);
  }

  lemma {:induction false} FromInteger(o: Options, d: nat, n: nat)
    requires Sound(o) && o.den == 1 && d <= o.max
    ensures From(o, d, n) == Min(o.max, d * Pow(o.num, n))
    decreases n
  {
    if n > 0 {
      PowStep(d, o.num, n);
      assert Scale(o, d) == d * o.num;
      if Scale(o, d) <= o.max {
        FromInteger(o, Scale(o, d), n - 1);
      }
    }
  }

  // For a whole factor the delay is the capped geometric series.
  lemma GeometricDelay(o: Options, k: nat)
    requires Capped(o) && o.den == 1
    ensures Delay(o, k + 1) == Min(o.max, o.base * Pow(o.num, k))
  {
    FromInteger(o, o.base, k);
  }

  lemma {:induction false} FromLinear(o: Options, d: nat, n: nat, g: nat)
    requires Sound(o) && d <= o.max && Scale(o, d) >= d + g
    ensures From(o, d, n) >= Min(o.max, d + n * g)
    decreases n
  {
    if n > 0 {
      var d' := Scale(o, d);
      ScaleGrows(o, d, d');
      assert n * g == (n - 1) * g + g;
      if d' <= o.max {
        FromLinear(o, d', n - 1, g);
      }
    }
  }

  lemma {:induction false} FromStuck(o: Options, d: nat, n: nat)
    requires Sound(o) && d <= o.max && Scale(o, d) == d
    ensures From(o, d, n) == d
    decreases n
  {
    if n > 0 {
      FromStuck(o, d, n - 1);
    }
  }

  // The maximum is reached, within max - base failures after the first, if and only if the
  // first delay is already the maximum or one step makes it grow.
  lemma ReachesMax(o: Options)
    requires Capped(o)
    ensures (exists k: nat :: Delay(o, k) == o.max) <==> o.base == o.max || Scale(o, o.base) > o.base
    ensures o.base == o.max || Scale(o, o.base) > o.base ==>
              forall k: nat | k > o.max - o.base :: Delay(o, k) == o.max
  {
    ScaleGrows(o, o.base, o.base);
    if o.base == o.max || Scale(o, o.base) > o.base {
      forall k: nat | k > o.max - o.base ensures Delay(o, k) == o.max {
        DelayLaws(o, k);
        if o.base == o.max {
          FromBounds(o, o.base, k - 1);
        } else {
          FromLinear(o, o.base, k - 1, 1);
        }
      }
      assert Delay(o, o.max - o.base + 1) == o.max;
    } else if k: nat :| Delay(o, k) == o.max {
      FromStuck(o, o.base, if k == 0 then 0 else k - 1);
    }
  }

  // ---- The counters ------------------------------------------------------------------------------------

  datatype Event = Forbidden(key: string) | Success | OtherError | Reset(key: string)

  // The Forbidden errors of a key since it was last reset.
  function Streak(history: seq<Event>, key: string): nat {
    if history == [] then 0
    else
      var last := history[|history| - 1];
      if last == Reset(key) then 0
      else Streak(history[..|history| - 1], key) + (if last == Forbidden(key) then 1 else 0)
  }

  class Tracker {
    var counts: map<string, nat>
    ghost var history: seq<Event>

    ghost predicate Valid()
      reads this
    {
      forall key :: Streak(history, key) == if key in counts then counts[key] else 0
    }

    constructor ()
      ensures Valid() && history == []
    {
      counts := map[];
      history := [];
    }

    method Increment(key: string) returns (count: nat)
      requires Valid()
      modifies this
      ensures Valid() && history == old(history) + [Forbidden(key)] && count == Streak(history, key)
      ensures count == Streak(old(history), key) + 1
      ensures forall k | k != key :: Streak(history, k) == Streak(old(history), k)
    {
      counts := counts[key := if key in counts then counts[key] + 1 else 1];
      history := history + [Forbidden(key)];
      assert history[..|history| - 1] == old(history);
      count := counts[key];
    }

    method ResetKey(key: string)
      requires Valid()
      modifies this
      ensures Valid() && history == old(history) + [Reset(key)]
      ensures Streak(history, key) == 0 && forall k | k != key :: Streak(history, k) == Streak(old(history), k)
    {
      counts := counts - {key};
      history := history + [Reset(key)];
      assert history[..|history| - 1] == old(history);
    }

    // Success and other errors reset nothing: they do not say which resource they were about.
    ghost method Note(e: Event)
      requires Valid() && (e.Success? || e.OtherError?)
      modifies this`history
      ensures Valid() && history == old(history) + [e]
    {
      history := history + [e];
      assert history[..|history| - 1] == old(history);
    }
  }

  predicate About(e: Event, key: string) {
    e == Forbidden(key) || e == Reset(key)
  }

  function Only(history: seq<Event>, key: string): seq<Event> {
    if history == [] then []
    else
      var last := history[|history| - 1];
      Only(history[..|history| - 1], key) + (if About(last, key) then [last] else [])
  }

  lemma StreakAppend(history: seq<Event>, e: Event, key: string)
    ensures Streak(history + [e], key) ==
              if e == Reset(key) then 0 else Streak(history, key) + (if e == Forbidden(key) then 1 else 0)
  {
    assert (history + [e])[..|history|] == history;
  }

  // A key's streak does not depend on other keys, on successes or on other errors, however
  // they are interleaved with its own events.
  lemma {:induction false} StreakIsOwn(history: seq<Event>, key: string)
    ensures Streak(history, key) == Streak(Only(history, key), key)
  {
    if history != [] {
      var init, last := history[..|history| - 1], history[|history| - 1];
      StreakIsOwn(init, key);
      if About(last, key) {
        StreakAppend(Only(init, key), last, key);
      } else {
        assert Only(history, key) == Only(init, key);
      }
    }
  }
}
