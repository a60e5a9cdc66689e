/**
 * The animated background of the history page: while an era with particles
 * is shown, a timer spawns one particle per tick into a short list that keeps
 * only the most recent few; the other era shows no particles.
 */
module EraBackground {
  import opened Wrappers

  datatype Era = Hadean | Oceanic | Paleozoic | IceAge | Industrial | Network | Digital | Default

  datatype ParticleKind = Meteor | Ember | Bubble | Snow | Data | NetworkDot | Spark

  /** A particle; `top` is set only for network particles. */
  datatype Particle = Particle(id: real, left: real, top: Option<real>, scale: real, speed: real, kind: ParticleKind)

  /** The five `Math.random()` draws of one spawn, in the order they are taken. */
  datatype Draws = Draws(id: real, left: real, top: real, scale: real, speed: real)

  predicate InUnit(r: real) { 0.0 <= r < 1.0 }

  predicate ValidDraws(d: Draws)
  {
    InUnit(d.id) && InUnit(d.left) && InUnit(d.top) && InUnit(d.scale) && InUnit(d.speed)
  }

  /** The kind of particle an era spawns, if any. */
  function KindOf(era: Era): (k: Option<ParticleKind>)
    ensures k == None <==> era == Default
    ensures k == Some(Meteor) <==> era == Paleozoic
    ensures k == Some(Ember) <==> era == Hadean
    ensures k == Some(Bubble) <==> era == Oceanic
    ensures k == Some(Snow) <==> era == IceAge
    ensures k == Some(Data) <==> era == Digital
    ensures k == Some(NetworkDot) <==> era == Network
    ensures k == Some(Spark) <==> era == Industrial
  {
    match era
    case Paleozoic => Some(Meteor)
    case Hadean => Some(Ember)
    case Oceanic => Some(Bubble)
    case IceAge => Some(Snow)
    case Digital => Some(Data)
    case Network => Some(NetworkDot)
    case Industrial => Some(Spark)
    case Default => None
  }

  /** How many of the previous particles a spawn keeps (the `slice(-k)` amount). */
  function Keep(era: Era): (k: nat)
    requires era != Default
    ensures k == 2 <==> era == Paleozoic
    ensures k == 10 <==> era == Oceanic
    ensures k == 15 <==> era == Hadean || era == Network
    ensures k == 20 <==> era == IceAge || era == Digital || era == Industrial
  {
    match era
    case Paleozoic => 2
    case Hadean => 15
    case Oceanic => 10
    case IceAge => 20
    case Digital => 20
    case Network => 15
    case Industrial => 20
  }

  /** The most particles an era shows right after a spawn: 3 meteors, 16 embers, 11 bubbles, 21 snowflakes, 21 data bits, 16 network dots or 21 sparks. */
  function Cap(era: Era): (c: nat)
    requires era != Default
    ensures c == Keep(era) + 1
    ensures c == 3 <==> era == Paleozoic
    ensures c == 11 <==> era == Oceanic
    ensures c == 16 <==> era == Hadean || era == Network
    ensures c == 21 <==> era == IceAge || era == Digital || era == Industrial
  {
    Keep(era) + 1
  }


  /** `slice(-k)` for a positive `k`: the last `k` elements, or all of them if there are fewer. */
  function KeepLast<T>(s: seq<T>, k: nat): (r: seq<T>)
    requires k > 0
    ensures |r| == if |s| <= k then |s| else k
    ensures r == s[|s| - |r|..]
  {
    if |s| <= k then s else s[|s| - k..]
  }

  /** The particle a spawn in `era` creates at time `now` from its random draws. */
  function NewParticle(era: Era, now: real, d: Draws): (p: Particle)
    requires era != Default
    ensures Some(p.kind) == KindOf(era)
    ensures p.id == now + d.id
    ensures p.top.Some? <==> era == Network
    ensures era == Network ==> p.left == -10.0 && p.top == Some(d.top * 100.0)
    ensures era != Network ==> p.left == d.left * 100.0
    ensures era == Oceanic ==> p.speed == (d.speed * 2.0 + 1.0) * 0.5
    ensures era != Oceanic ==> p.speed == d.speed * 2.0 + 1.0
  {
    var id := now + d.id;
    var left := d.left * 100.0;
    var top := d.top * 100.0;
    var scale := d.scale * 0.8 + 1.2;
    var speed := d.speed * 2.0 + 1.0;
    match era
    case Paleozoic => Particle(id, left, None, scale, speed, Meteor)
    case Hadean => Particle(id, left, None, scale, speed, Ember)
    case Oceanic => Particle(id, left, None, scale, speed * 0.5, Bubble)
    case IceAge => Particle(id, left, None, scale, speed, Snow)
    case Digital => Particle(id, left, None, scale, speed, Data)
    case Network => Particle(id, -10.0, Some(top), scale, speed, NetworkDot)
    case Industrial => Particle(id, left, None, scale, speed, Spark)
  }

  /** Random draws put every particle's size and speed in a fixed band: bubbles move at half speed. */
  lemma ParticleBounds(era: Era, now: real, d: Draws)
    requires era != Default && ValidDraws(d)
    ensures 1.2 <= NewParticle(era, now, d).scale < 2.0
    ensures era == Oceanic ==> 0.5 <= NewParticle(era, now, d).speed < 1.5
    ensures era != Oceanic ==> 1.0 <= NewParticle(era, now, d).speed < 3.0
    ensures era != Network ==> 0.0 <= NewParticle(era, now, d).left < 100.0
  {
  }

  /**
   * The list after one spawn: the most recent particles of `prev` that the
   * era keeps, then the new particle; the default era empties the list.
   */
  function Spawned(prev: seq<Particle>, era: Era, now: real, d: Draws): (r: seq<Particle>)
    ensures era == Default ==> r == []
    ensures era != Default ==> |r| == if |prev| < Cap(era) then |prev| + 1 else Cap(era)
  {
    if era == Default then [] else KeepLast(prev, Keep(era)) + [NewParticle(era, now, d)]
  }

  /**
   * After a spawn the new particle is last and the others are the most
   * recent particles of the old list, in their order; under the cap nothing
   * is dropped.
   */
  lemma SpawnedShape(prev: seq<Particle>, era: Era, now: real, d: Draws)
    requires era != Default
    ensures var r := Spawned(prev, era, now, d);
      r[|r| - 1] == NewParticle(era, now, d) &&
      r[..|r| - 1] == prev[|prev| - (|r| - 1)..]
    ensures |prev| < Cap(era) ==> Spawned(prev, era, now, d) == prev + [NewParticle(era, now, d)]
  {
    var r := Spawned(prev, era, now, d);
    var kept, p := KeepLast(prev, Keep(era)), NewParticle(era, now, d);
    assert r == kept + [p];
    assert r[..|r| - 1] == kept;
    assert |prev| < Cap(era) ==> kept == prev;
  }

  /** However long the list was, a spawn leaves no more particles than the era's cap. */
  lemma SpawnedWithinCap(prev: seq<Particle>, era: Era, now: real, d: Draws)
    requires era != Default
    ensures |Spawned(prev, era, now, d)| <= Cap(era)
  {
  }

  /** The spawn interval of an era in milliseconds; `None` when the era spawns nothing. */
  function SpawnRate(era: Era): (rate: Option<nat>)
    ensures rate == None <==> era == Default
    ensures rate == Some(1200) <==> era == Paleozoic
    ensures rate == Some(300) <==> era == Hadean || era == Industrial
    ensures rate == Some(200) <==> era == Oceanic || era == IceAge || era == Digital || era == Network
  {
    match era
    case Default => None
    case Paleozoic => Some(1200)
    case Hadean | Industrial => Some(300)
    case Oceanic | IceAge | Digital | Network => Some(200)
  }

  /** The background's particle state and the timer its effect sets up. */
  class ParticleField {
    var era: Era
    var particles: seq<Particle>
    /** The period of the running spawn timer, if one runs. */
    var interval: Option<nat>

    /** A timer runs exactly for particle eras, and the default era shows nothing. */
    ghost predicate Valid()
      reads this
    {
      interval == SpawnRate(era) && (era == Default ==> particles == [])
    }

    /** The background mounted in `era`, with its effect run once. */
    constructor (era: Era)
      ensures Valid()
      ensures this.era == era && particles == []
    {
      this.era := era;
      particles := [];
      interval := SpawnRate(era);
    }

    /**
     * The effect re-run for a new era: the old timer is cleared and a new
     * one started at the era's rate; the default era empties the list,
     * while a particle era keeps the particles it finds.
     */
    method SetEra(newEra: Era)
      modifies this
      ensures Valid()
      ensures era == newEra && interval == SpawnRate(newEra)
      ensures particles == if newEra == Default then [] else old(particles)
    {
      era := newEra;
      interval := SpawnRate(newEra);
      if newEra == Default {
        particles := [];
      }
    }

    /** One tick of the spawn timer, at time `now`, with the tick's random draws. */
    method Spawn(now: real, d: Draws)
      requires Valid()
      modifies this`particles
      ensures Valid()
      ensures particles == Spawned(old(particles), era, now, d)
    {
      var id := now + d.id;
      var left := d.left * 100.0;
      var top := d.top * 100.0;
      var scale := d.scale * 0.8 + 1.2;
      var speed := d.speed * 2.0 + 1.0;
      if era == Paleozoic {
        particles := KeepLast(particles, 2) + [Particle(id, left, None, scale, speed, Meteor)];
      } else if era == Hadean {
        particles := KeepLast(particles, 15) + [Particle(id, left, None, scale, speed, Ember)];
      } else if era == Oceanic {
        particles := KeepLast(particles, 10) + [Particle(id, left, None, scale, speed * 0.5, Bubble)];
      } else if era == IceAge {
        particles := KeepLast(particles, 20) + [Particle(id, left, None, scale, speed, Snow)];
      } else if era == Digital {
        particles := KeepLast(particles, 20) + [Particle(id, left, None, scale, speed, Data)];
      } else if era == Network {
        particles := KeepLast(particles, 15) + [Particle(id, -10.0, Some(top), scale, speed, NetworkDot)];
      } else if era == Industrial {
        particles := KeepLast(particles, 20) + [Particle(id, left, None, scale, speed, Spark)];
      } else {
        particles := [];
      }
    }
  }

  function MinInt(a: int, b: int): int { if a <= b then a else b }

  /**
   * The list after a run of timer ticks within one era, each tick with its
   * time and draws: the list never exceeds the era's cap after a tick, and
   * from within the cap it grows by one per tick until the cap is reached.
   */
  function SpawnAll(prev: seq<Particle>, era: Era, ticks: seq<(real, Draws)>): (r: seq<Particle>)
    requires era != Default
    ensures |ticks| > 0 ==> |r| <= Cap(era)
    ensures |prev| <= Cap(era) ==> |r| == MinInt(|prev| + |ticks|, Cap(era))
  {
    if |ticks| == 0 then prev
    else
      var last := ticks[|ticks| - 1];
      Spawned(SpawnAll(prev, era, ticks[..|ticks| - 1]), era, last.0, last.1)
  }
}
