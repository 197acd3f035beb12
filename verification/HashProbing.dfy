/** Cell addressing of an AtomicHashArray: the anchor cell of a key and the
    two probe functors that lead from it to the cells tried next. */
module HashProbing {

  import opened Common

  datatype ProbeKind = Linear | Quadratic

  /** Template and constructor arguments shared by all sub-maps of one map. */
  datatype Config = Config(kind: ProbeKind, hash: int -> nat, mayThrow: bool, createMayThrow: bool)

  /** Least power of two that is at least n. */
  function NextPow2(n: nat): (p: nat)
    ensures n <= p && 0 < p
    ensures n > 0 ==> p < 2 * n
  {
    if n <= 1 then 1 else 2 * NextPow2((n + 1) / 2)
  }

  /** The remainder of h by c, by repeated subtraction. */
  function Mod(h: nat, c: nat): (r: nat)
    requires c > 0
    ensures r < c
  {
    if h < c then h else Mod(h - c, c)
  }

  /** keyToAnchorIdx: a mask when it lands inside the array, a modulus otherwise. */
  function Anchor(h: nat, cap: nat): (idx: nat)
    requires cap > 0
    ensures idx < cap
  {
    var probe := Mod(h, NextPow2(cap));
    if probe < cap then probe else Mod(h, cap)
  }

  /** One call of the probe functor; one subtraction replaces the modulus. */
  function NextProbe(kind: ProbeKind, idx: nat, numProbes: nat, cap: nat): (r: nat)
    requires idx < cap && 0 < numProbes < cap
    ensures r < cap
  {
    var next := idx + if kind.Linear? then 1 else numProbes;
    if next < cap then next else next - cap
  }

  /** The cell tried after n unsuccessful probes for key k. */
  function ProbeAt(cfg: Config, cap: nat, k: int, n: nat): (idx: nat)
    requires n < cap
    ensures idx < cap
  {
    if n == 0 then Anchor(cfg.hash(k), cap)
    else NextProbe(cfg.kind, ProbeAt(cfg, cap, k, n - 1), n, cap)
  }

  /** Distance of the n-th probe from the anchor, before wrapping round. */
  function Distance(kind: ProbeKind, n: nat): nat {
    if n == 0 then 0 else Distance(kind, n - 1) + if kind.Linear? then 1 else n
  }

  function Times(w: nat, c: nat): nat {
    if w == 0 then 0 else Times(w - 1, c) + c
  }

  lemma {:induction false} TimesIsProduct(w: nat, c: nat)
    ensures Times(w, c) == w * c
  {
    if w > 0 {
      TimesIsProduct(w - 1, c);
    }
  }

  /** Both functors walk Distance cells from the anchor, wrapping at the end of the array. */
  lemma {:induction false} ProbeWalksDistance(cfg: Config, cap: nat, k: int, n: nat) returns (wraps: nat)
    requires n < cap
    ensures ProbeAt(cfg, cap, k, n) + Times(wraps, cap) == Anchor(cfg.hash(k), cap) + Distance(cfg.kind, n)
  {
    if n == 0 {
      wraps := 0;
    } else {
      var before := ProbeWalksDistance(cfg, cap, k, n - 1);
      var prev := ProbeAt(cfg, cap, k, n - 1);
      var next := prev + if cfg.kind.Linear? then 1 else n;
      wraps := if next < cap then before else before + 1;
    }
  }

  lemma {:induction false} DistanceGap(kind: ProbeKind, m: nat, n: nat)
    requires m < n
    ensures kind.Linear? ==> Distance(kind, n) - Distance(kind, m) == n - m
    ensures kind.Quadratic? ==> 2 * (Distance(kind, n) - Distance(kind, m)) == (n - m) * (n + m + 1)
  {
    if n > m + 1 {
      DistanceGap(kind, m, n - 1);
      assert (n - m) * (n + m + 1) == (n - 1 - m) * (n + m) + 2 * n;
    } else {
      assert (n - m) * (n + m + 1) == 2 * n;
    }
  }

  lemma OddTimesOdd(x: nat, y: nat)
    requires x % 2 == 1 && y % 2 == 1
    ensures x * y % 2 == 1
  {
    var a, b := x / 2, y / 2;
    var m := 2 * (a * b) + a + b;
    assert x * y == 2 * m + 1 by {
      assert x == 2 * a + 1 && y == 2 * b + 1;
      assert (2 * a + 1) * (2 * b + 1) == (2 * a) * (2 * b) + 2 * a + 2 * b + 1;
      assert (2 * a) * (2 * b) == 4 * (a * b);
    }
  }

  lemma HalveProduct(x: nat, half: nat, q: nat, p: nat)
    requires x * (2 * half) == q * (2 * p)
    ensures x * half == q * p
  {
    assert x * (2 * half) == 2 * (x * half);
    assert q * (2 * p) == 2 * (q * p);
  }

  /** A power of two that divides x * y divides y when x is odd. */
  lemma {:induction false} OddFactorDropsOut(e: nat, x: nat, y: nat, q: nat) returns (r: nat)
    requires x % 2 == 1 && x * y == q * Pow2(e)
    ensures y == r * Pow2(e)
  {
    if e == 0 {
      r := y;
    } else {
      var p := Pow2(e - 1);
      assert y % 2 == 0 by {
        if y % 2 == 1 {
          OddTimesOdd(x, y);
          EvenProduct(q, p);
        }
      }
      var half := y / 2;
      HalveProduct(x, half, q, p);
      r := OddFactorDropsOut(e - 1, x, half, q);
      EvenProduct(r, p);
    }
  }

  lemma EvenProduct(q: nat, p: nat)
    ensures q * (2 * p) == 2 * (q * p) && q * (2 * p) % 2 == 0
  {
  }

  lemma NoSmallMultiple(q: int, c: nat, d: nat)
    requires 0 < d < c
    ensures q * c != d
  {
    if q <= 0 {
      assert q * c <= 0;
    } else {
      assert q * c >= c;
    }
  }

  lemma NonPositiveProduct(q: int, p: nat)
    requires q <= 0
    ensures q * p <= 0
  {
  }

  /** The difference of two triangular numbers below 2^e is no multiple of 2^e. */
  lemma TriangularGap(e: nat, m: nat, n: nat, q: int)
    requires m < n < Pow2(e)
    ensures 2 * (q * Pow2(e)) != (n - m) * (n + m + 1)
  {
    var p := Pow2(e);
    var x, y := n - m, n + m + 1;
    if 2 * (q * p) == x * y {
      assert x * y > 0;
      assert q > 0 by {
        if q <= 0 { NonPositiveProduct(q, p); }
      }
      EvenProduct(q, p);
      assert q * Pow2(e + 1) == x * y;
      if x % 2 == 1 {
        var r := OddFactorDropsOut(e + 1, x, y, q);
        NoSmallMultiple(r, Pow2(e + 1), y);
      } else {
        assert y % 2 == 1;
        assert y * x == x * y;
        var r := OddFactorDropsOut(e + 1, y, x, q);
        NoSmallMultiple(r, Pow2(e + 1), x);
      }
    }
  }

  lemma SameCellTooSoon(kind: ProbeKind, cap: nat, e: nat, m: nat, n: nat, q: int)
    requires kind.Linear? || cap == Pow2(e)
    requires m < n < cap
    ensures q * cap != Distance(kind, n) - Distance(kind, m)
  {
    DistanceGap(kind, m, n);
    if kind.Linear? {
      NoSmallMultiple(q, cap, n - m);
    } else {
      TriangularGap(e, m, n, q);
    }
  }

  lemma DifferentEnds(kind: ProbeKind, cap: nat, e: nat, m: nat, n: nat, a: int, b: int, wa: nat, wb: nat, start: int)
    requires kind.Linear? || cap == Pow2(e)
    requires m < n < cap
    requires a + Times(wa, cap) == start + Distance(kind, m)
    requires b + Times(wb, cap) == start + Distance(kind, n)
    ensures a != b
  {
    TimesIsProduct(wa, cap);
    TimesIsProduct(wb, cap);
    SameCellTooSoon(kind, cap, e, m, n, wb - wa);
    assert (wb - wa) * cap == wb * cap - wa * cap;
  }

  /** No cell is tried twice within cap probes: linearly for every capacity,
      quadratically for every capacity that is a power of two. */
  lemma ProbesDistinct(cfg: Config, cap: nat, e: nat, k: int, m: nat, n: nat)
    requires cfg.kind.Linear? || cap == Pow2(e)
    requires m < n < cap
    ensures ProbeAt(cfg, cap, k, m) != ProbeAt(cfg, cap, k, n)
  {
    var wm := ProbeWalksDistance(cfg, cap, k, m);
    var wn := ProbeWalksDistance(cfg, cap, k, n);
    DifferentEnds(cfg.kind, cap, e, m, n, ProbeAt(cfg, cap, k, m), ProbeAt(cfg, cap, k, n), wm, wn,
                  Anchor(cfg.hash(k), cap));
  }

  /** The cells tried by the first n probes. */
  function Tried(cfg: Config, cap: nat, k: int, n: nat): (cells: set<nat>)
    requires n <= cap
  {
    set m | 0 <= m < n :: ProbeAt(cfg, cap, k, m)
  }

  lemma {:induction false} TriedCount(cfg: Config, cap: nat, e: nat, k: int, n: nat)
    requires cfg.kind.Linear? || cap == Pow2(e)
    requires n <= cap
    ensures |Tried(cfg, cap, k, n)| == n
  {
    if n > 0 {
      TriedCount(cfg, cap, e, k, n - 1);
      var last := ProbeAt(cfg, cap, k, n - 1);
      forall m | 0 <= m < n - 1 ensures ProbeAt(cfg, cap, k, m) != last {
        ProbesDistinct(cfg, cap, e, k, m, n - 1);
      }
      assert Tried(cfg, cap, k, n) == Tried(cfg, cap, k, n - 1) + {last};
    }
  }

  lemma {:induction false} BoundedSetSize(n: nat, s: set<nat>)
    requires forall x <- s :: x < n
    ensures |s| <= n
  {
    if n > 0 {
      BoundedSetSize(n - 1, s - {n - 1});
      if n - 1 in s {
        assert s == (s - {n - 1}) + {n - 1};
      } else {
        assert s == s - {n - 1};
      }
    }
  }

  ghost predicate IsPow2(c: nat) {
    exists e: nat :: c == Pow2(e)
  }

  /** One of the cap probes of key k tries cell c. */
  ghost predicate Tries(cfg: Config, cap: nat, k: int, c: nat) {
    exists n :: 0 <= n < cap && ProbeAt(cfg, cap, k, n) == c
  }

  /** The cap probes of key k try every cell. */
  ghost predicate Covers(cfg: Config, cap: nat, k: int) {
    forall c: nat :: c < cap ==> Tries(cfg, cap, k, c)
  }

  lemma DistinctCover(cfg: Config, cap: nat, e: nat, k: int)
    requires cfg.kind.Linear? || cap == Pow2(e)
    ensures Covers(cfg, cap, k)
  {
    TriedCount(cfg, cap, e, k, cap);
    var tried := Tried(cfg, cap, k, cap);
    forall c: nat | c < cap ensures Tries(cfg, cap, k, c) {
      if c !in tried {
        BoundedSetSize(cap, tried + {c});
      }
    }
  }

  // ---------- quadratic probing of other capacities ----------

  /** A capacity that is no power of two has an odd factor above one. */
  lemma {:induction false} OddPart(cap: nat) returns (e: nat, p: nat)
    requires cap > 0 && !IsPow2(cap)
    ensures p >= 3 && p % 2 == 1 && cap == Pow2(e) * p
  {
    if cap % 2 == 1 {
      e, p := 0, cap;
      assert cap == Pow2(0) ==> IsPow2(cap);
    } else {
      var half := cap / 2;
      if f: nat :| half == Pow2(f) {
        assert cap == Pow2(f + 1);
      }
      e, p := OddPart(half);
      assert half == Pow2(e) * p;
      EvenProduct(p, Pow2(e));
      e := e + 1;
    }
  }

  lemma SmallSum(a: nat, p: nat)
    requires a >= 2 && p >= 2
    ensures a + p <= a * p
  {
    assert (a - 1) * (p - 1) >= 1;
    assert (a - 1) * (p - 1) == a * p - a - p + 1;
  }

  /** Two probes of quadratic probing that are exactly one turn of the array apart. */
  lemma OneTurnApart(cap: nat) returns (m: nat, n: nat)
    requires cap > 0 && !IsPow2(cap)
    ensures m < n < cap && Distance(Quadratic, n) - Distance(Quadratic, m) == cap
  {
    var e, p := OddPart(cap);
    var a := 2 * Pow2(e);
    assert a * p == 2 * cap by {
      assert 2 * Pow2(e) * p == 2 * (Pow2(e) * p);
    }
    hide Pow2, IsPow2;
    if a < p {
      m, n := ApartByFactors(cap, a, p);
    } else {
      assert p * a == a * p;
      m, n := ApartByFactors(cap, p, a);
    }
  }

  lemma ApartByFactors(cap: nat, x: nat, y: nat) returns (m: nat, n: nat)
    requires 2 <= x < y && (x + y) % 2 == 1 && x * y == 2 * cap
    ensures m < n < cap && Distance(Quadratic, n) - Distance(Quadratic, m) == cap
  {
    SmallSum(x, y);
    m, n := (y - x - 1) / 2, (x + y - 1) / 2;
    hide Distance;
    assert n - m == x && n + m + 1 == y;
    DistanceGap(Quadratic, m, n);
  }

  lemma SameEnds(cap: nat, d: nat, a: nat, b: nat, wa: nat, wb: nat, start: nat)
    requires a < cap && b < cap
    requires a + Times(wa, cap) == start + d && b + Times(wb, cap) == start + d + cap
    ensures a == b
  {
    TimesIsProduct(wa, cap);
    TimesIsProduct(wb, cap);
    var q := wb - wa;
    assert (q - 1) * cap == wb * cap - wa * cap - cap && (1 - q) * cap == -((q - 1) * cap);
    if a > b {
      NoSmallMultiple(q - 1, cap, a - b);
    } else if a < b {
      NoSmallMultiple(1 - q, cap, b - a);
    }
  }

  lemma SameCellTwice(cfg: Config, cap: nat, k: int) returns (m: nat, n: nat)
    requires cap > 0 && !IsPow2(cap) && cfg.kind.Quadratic?
    ensures m < n < cap && ProbeAt(cfg, cap, k, m) == ProbeAt(cfg, cap, k, n)
  {
    m, n := OneTurnApart(cap);
    var wm := ProbeWalksDistance(cfg, cap, k, m);
    var wn := ProbeWalksDistance(cfg, cap, k, n);
    SameEnds(cap, Distance(Quadratic, m), ProbeAt(cfg, cap, k, m), ProbeAt(cfg, cap, k, n), wm, wn,
             Anchor(cfg.hash(k), cap));
  }

  lemma {:induction false} TriedAtMost(cfg: Config, cap: nat, k: int, n: nat)
    requires n <= cap
    ensures |Tried(cfg, cap, k, n)| <= n
  {
    if n > 0 {
      TriedAtMost(cfg, cap, k, n - 1);
      assert Tried(cfg, cap, k, n) == Tried(cfg, cap, k, n - 1) + {ProbeAt(cfg, cap, k, n - 1)};
    }
  }

  lemma {:induction false} TriedFewer(cfg: Config, cap: nat, k: int, m: nat, n: nat, j: nat)
    requires m < n < j <= cap && ProbeAt(cfg, cap, k, m) == ProbeAt(cfg, cap, k, n)
    ensures |Tried(cfg, cap, k, j)| < j
  {
    var last := ProbeAt(cfg, cap, k, j - 1);
    assert Tried(cfg, cap, k, j) == Tried(cfg, cap, k, j - 1) + {last};
    if j - 1 == n {
      TriedAtMost(cfg, cap, k, n);
      assert last in Tried(cfg, cap, k, n);
    } else {
      TriedFewer(cfg, cap, k, m, n, j - 1);
    }
  }

  lemma {:induction false} FullSet(n: nat, s: set<nat>)
    requires forall c: nat :: c < n ==> c in s
    ensures |s| >= n
  {
    if n > 0 {
      FullSet(n - 1, s - {n - 1});
    }
  }

  lemma QuadraticMisses(cfg: Config, cap: nat, k: int)
    requires cap > 0 && !IsPow2(cap) && cfg.kind.Quadratic?
    ensures !Covers(cfg, cap, k)
  {
    var m, n := SameCellTwice(cfg, cap, k);
    TriedFewer(cfg, cap, k, m, n, cap);
    var tried := Tried(cfg, cap, k, cap);
    if Covers(cfg, cap, k) {
      forall c: nat | c < cap ensures c in tried {
        assert Tries(cfg, cap, k, c);
        var i :| 0 <= i < cap && ProbeAt(cfg, cap, k, i) == c;
      }
      FullSet(cap, tried);
    }
  }

  /** Giving up after cap probes means every cell of the array was looked at, exactly
      when probing is linear or the capacity is a power of two. */
  lemma CoversIffPow2(cfg: Config, cap: nat, k: int)
    requires cap > 0
    ensures Covers(cfg, cap, k) <==> cfg.kind.Linear? || IsPow2(cap)
  {
    if cfg.kind.Linear? {
      DistinctCover(cfg, cap, 0, k);
    } else if IsPow2(cap) {
      var e: nat :| cap == Pow2(e);
      DistinctCover(cfg, cap, e, k);
    } else {
      QuadraticMisses(cfg, cap, k);
    }
  }

  /** The smallest such array: with three cells the third probe returns to the anchor. */
  lemma ThreeCellsMissed(k: int)
    ensures var cfg := Config(Quadratic, (x: int) => 0, false, false);
            (forall n :: 0 <= n < 3 ==> ProbeAt(cfg, 3, k, n) != 2) && !Covers(cfg, 3, k)
  {
    var cfg := Config(Quadratic, (x: int) => 0, false, false);
    assert ProbeAt(cfg, 3, k, 0) == 0;
    assert ProbeAt(cfg, 3, k, 1) == 1;
    assert ProbeAt(cfg, 3, k, 2) == 0;
    assert !Tries(cfg, 3, k, 2);
  }
}
