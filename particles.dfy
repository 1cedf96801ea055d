/**
 * components/FloatingParticles.tsx: the decorative particles. Every timer
 * tick keeps the last fifteen and adds a new one.
 */
module Particles {

  datatype Glyph = Heart | Leaf

  datatype Particle = Particle(id: int, left: real, duration: real, glyph: Glyph, size: real)

  /** How many older particles a tick keeps. */
  const Kept := 15

  /**
   * The particle a tick creates from `Date.now()` and four draws of
   * `Math.random()`, each in [0, 1).
   */
  function NewParticle(now: int, r1: real, r2: real, r3: real, r4: real): (p: Particle)
    requires 0.0 <= r1 < 1.0 && 0.0 <= r2 < 1.0 && 0.0 <= r3 < 1.0 && 0.0 <= r4 < 1.0
    ensures p.id == now
    ensures 0.0 <= p.left < 100.0 && 5.0 <= p.duration < 15.0 && 15.0 <= p.size < 35.0
    ensures p.glyph == Heart <==> r3 > 0.5
  {
    Particle(now, r1 * 100.0, 5.0 + r2 * 10.0, if r3 > 0.5 then Heart else Leaf, 15.0 + r4 * 20.0)
  }

  /** `prev.slice(-15)`: the last fifteen elements, or all of them when there are fewer. */
  function LastKept(prev: seq<Particle>): (r: seq<Particle>)
    ensures |r| == if |prev| <= Kept then |prev| else Kept
    ensures r == prev[|prev| - |r|..]
    ensures |prev| <= Kept ==> r == prev
  {
    if |prev| <= Kept then prev else prev[|prev| - Kept..]
  }

  /**
   * `[...prev.slice(-15), newParticle]`: at most sixteen particles, the new
   * one last, before it the newest fifteen of the old buffer in order.
   */
  function Slide(prev: seq<Particle>, p: Particle): (r: seq<Particle>)
    ensures 1 <= |r| <= Kept + 1 && |r| - 1 <= |prev|
    ensures r[|r| - 1] == p
    ensures r[..|r| - 1] == prev[|prev| - (|r| - 1)..]
    ensures |prev| <= Kept ==> r == prev + [p]
  {
    LastKept(prev) + [p]
  }

  /** The buffer after one tick per particle in `ps`, in order. */
  function Run(prev: seq<Particle>, ps: seq<Particle>): seq<Particle>
    decreases |ps|
  {
    if ps == [] then prev else Run(Slide(prev, ps[0]), ps[1..])
  }

  /** The newest sixteen elements of a sequence, or all of them when there are fewer. */
  function Newest(s: seq<Particle>): (r: seq<Particle>)
    ensures |r| == if |s| <= Kept + 1 then |s| else Kept + 1
    ensures r == s[|s| - |r|..]
  {
    if |s| <= Kept + 1 then s else s[|s| - (Kept + 1)..]
  }

  /** Dropping elements from the front does not change the newest sixteen when at least sixteen remain. */
  lemma NewestAfterDrop(s: seq<Particle>, j: nat)
    requires j <= |s| && (j == 0 || |s| - j >= Kept + 1)
    ensures Newest(s[j..]) == Newest(s)
  {
    if j == 0 {
      assert s[0..] == s;
    }
  }

  /** One slide followed by the remaining particles is `prev + ps` with its first `j` elements dropped. */
  lemma SlideIsDrop(prev: seq<Particle>, ps: seq<Particle>) returns (j: nat)
    requires |prev| <= Kept + 1 && ps != []
    ensures j <= |prev + ps| && (j == 0 || |prev + ps| - j >= Kept + 1)
    ensures Slide(prev, ps[0]) + ps[1..] == (prev + ps)[j..]
  {
    j := |prev| - |LastKept(prev)|;
    var kept := LastKept(prev);
    assert kept == prev[j..];
    assert kept + [ps[0]] + ps[1..] == prev[j..] + ps;
    assert prev[j..] + ps == (prev + ps)[j..];
  }

  /** Run from `prev` over `ps` ends with the newest sixteen of `prev + ps`, provided `prev` holds at most sixteen. */
  lemma {:induction false} RunKeepsNewest(prev: seq<Particle>, ps: seq<Particle>)
    requires |prev| <= Kept + 1
    ensures Run(prev, ps) == Newest(prev + ps)
    decreases |ps|
  {
    if ps == [] {
      assert prev + ps == prev;
    } else {
      var next := Slide(prev, ps[0]);
      assert Run(prev, ps) == Run(next, ps[1..]);
      RunKeepsNewest(next, ps[1..]);
      var j := SlideIsDrop(prev, ps);
      NewestAfterDrop(prev + ps, j);
    }
  }

  /** From the empty start, the buffer after `n` ticks holds the last min(n, 16) particles created. */
  lemma RunFromEmpty(ps: seq<Particle>)
    ensures |Run([], ps)| <= Kept + 1 && |Run([], ps)| <= |ps|
    ensures Run([], ps) == ps[|ps| - |Run([], ps)|..]
    ensures |ps| <= Kept + 1 ==> Run([], ps) == ps
  {
    RunKeepsNewest([], ps);
    assert [] + ps == ps;
  }

  /** The particle layer's state. */
  class ParticleField {
    var particles: seq<Particle>

    predicate Valid()
      reads this
    {
      |particles| <= Kept + 1
    }

    constructor ()
      ensures particles == [] && Valid()
    {
      particles := [];
    }

    /** One two-second tick. */
    method Tick(now: int, r1: real, r2: real, r3: real, r4: real)
      requires 0.0 <= r1 < 1.0 && 0.0 <= r2 < 1.0 && 0.0 <= r3 < 1.0 && 0.0 <= r4 < 1.0
      modifies this
      ensures Valid()
      ensures particles == Slide(old(particles), NewParticle(now, r1, r2, r3, r4))
    {
      particles := Slide(particles, NewParticle(now, r1, r2, r3, r4));
    }
  }
}
