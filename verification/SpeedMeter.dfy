/** The sliding-window download speed: the meter evicts aged-out chunks in place, the reference
    meter keeps the full history. */
module SpeedMeter {

  /** `n` bytes were read at time `t`. */
  datatype Chunk = Chunk(t: int, n: int)

  /** The chunks that are younger than a cutoff. */
  function After(chunks: seq<Chunk>, cutoff: int): seq<Chunk>
  {
    if chunks == [] then []
    else
      var rest := After(chunks[..|chunks| - 1], cutoff);
      var last := chunks[|chunks| - 1];
      if last.t > cutoff then rest + [last] else rest
  }

  function Sum(chunks: seq<Chunk>): int
  {
    if chunks == [] then 0 else Sum(chunks[..|chunks| - 1]) + chunks[|chunks| - 1].n
  }

  lemma AfterGrows(chunks: seq<Chunk>, c: Chunk, cutoff: int)
    ensures After(chunks + [c], cutoff) == After(chunks, cutoff) + if c.t > cutoff then [c] else []
    ensures Sum(chunks + [c]) == Sum(chunks) + c.n
  {
    assert (chunks + [c])[..|chunks|] == chunks;
  }

  function Max(a: int, b: int): int { if a < b then b else a }

  /** Evicting twice is evicting once, at the later cutoff. */
  lemma {:induction false} AfterTwice(chunks: seq<Chunk>, a: int, b: int)
    ensures After(After(chunks, a), b) == After(chunks, Max(a, b))
  {
    if chunks != [] {
      var front, last := chunks[..|chunks| - 1], chunks[|chunks| - 1];
      AfterTwice(front, a, b);
      if last.t > a {
        AfterGrows(After(front, a), last, b);
      }
    }
  }

  /** A measurement sees the full history unless an earlier one evicted a chunk that is younger than
      its own cutoff. */
  lemma {:induction false} LossExactly(chunks: seq<Chunk>, evicted: int, cutoff: int)
    requires forall c :: c in chunks ==> c.n > 0
    ensures Sum(After(chunks, Max(evicted, cutoff))) == Sum(After(chunks, cutoff))
            <==> forall c :: c in chunks ==> !(cutoff < c.t <= evicted)
    ensures Sum(After(chunks, Max(evicted, cutoff))) <= Sum(After(chunks, cutoff))
  {
    if chunks != [] {
      var front, last := chunks[..|chunks| - 1], chunks[|chunks| - 1];
      assert chunks == front + [last];
      LossExactly(front, evicted, cutoff);
      AfterGrows(After(front, cutoff), last, cutoff);
      AfterGrows(After(front, Max(evicted, cutoff)), last, cutoff);
    }
  }

  /** Bytes per second over the window, or over the age of a younger download. */
  function Speed(sum: int, age: int, window: int): real
  {
    var span := if age > window then window else age;
    if span <= 0 then 0.0 else sum as real / span as real
  }

  /** The reference meter. */
  function FullSpeed(history: seq<Chunk>, start: int, now: int, window: int): real
  {
    Speed(Sum(After(history, now - window)), now - start, window)
  }

  /** Move the young chunks to the front of the buffer they are in, and sum them. */
  method Compact(chunks: array<Chunk>, count: nat, cutoff: int) returns (sum: int, kept: nat)
    requires count <= chunks.Length
    modifies chunks
    ensures kept <= count && chunks[..kept] == After(old(chunks[..count]), cutoff)
    ensures sum == Sum(After(old(chunks[..count]), cutoff))
    // Exactly the chunks that are younger than the cutoff are kept, and none of them is lost.
    ensures forall c: Chunk :: c in chunks[..kept] <==> c in old(chunks[..count]) && c.t > cutoff
    ensures forall c: Chunk :: c.t > cutoff ==> multiset(chunks[..kept])[c] == multiset(old(chunks[..count]))[c]
  {
    ghost var before, front := chunks[..count], [];
    sum, kept := 0, 0;
    for i := 0 to count
      invariant kept == |front| && front == After(before[..i], cutoff) && sum == Sum(front)
      invariant Packed(chunks[..], before, front, i)
    {
      var c := chunks[i];
      ghost var held := chunks[..];
      NextChunk(before, front, i, cutoff);
      PackedStep(held, before, front, i);
      if c.t > cutoff {
        chunks[kept] := c;
        assert chunks[..] == held[kept := c];
        front := front + [c];
        sum, kept := sum + c.n, kept + 1;
      }
    }
    assert before[..count] == before;
    AfterMembers(before, cutoff);
  }

  lemma {:induction false} AfterMembers(chunks: seq<Chunk>, cutoff: int)
    ensures forall c: Chunk :: c in After(chunks, cutoff) <==> c in chunks && c.t > cutoff
    ensures forall c: Chunk :: c.t > cutoff ==> multiset(After(chunks, cutoff))[c] == multiset(chunks)[c]
  {
    if chunks != [] {
      var front, last := chunks[..|chunks| - 1], chunks[|chunks| - 1];
      assert chunks == front + [last];
      AfterMembers(front, cutoff);
    }
  }

  /** The kept chunks are at the front, and the unread ones where they were. */
  ghost predicate Packed(held: seq<Chunk>, before: seq<Chunk>, front: seq<Chunk>, i: nat)
  {
    && |front| <= i <= |before| <= |held| && held[..|front|] == front
    && (forall k :: i <= k < |before| ==> held[k] == before[k])
  }

  lemma PackedStep(held: seq<Chunk>, before: seq<Chunk>, front: seq<Chunk>, i: nat)
    requires Packed(held, before, front, i) && i < |before|
    ensures held[i] == before[i] && Packed(held, before, front, i + 1)
    ensures Packed(held[|front| := before[i]], before, front + [before[i]], i + 1)
  {}

  lemma NextChunk(chunks: seq<Chunk>, front: seq<Chunk>, i: nat, cutoff: int)
    requires i < |chunks| && front == After(chunks[..i], cutoff)
    ensures After(chunks[..i + 1], cutoff) == if chunks[i].t > cutoff then front + [chunks[i]] else front
    ensures Sum(front + [chunks[i]]) == Sum(front) + chunks[i].n
  {
    assert chunks[..i + 1] == chunks[..i] + [chunks[i]];
    AfterGrows(chunks[..i], chunks[i], cutoff);
    AfterGrows(front, chunks[i], cutoff);
  }

  method Grow(chunks: array<Chunk>) returns (grown: array<Chunk>)
    ensures fresh(grown) && grown.Length > chunks.Length && grown[..chunks.Length] == chunks[..]
  {
    grown := new Chunk[2 * chunks.Length + 1](_ => Chunk(0, 0));
    for i := 0 to chunks.Length
      invariant unchanged(chunks) && grown[..i] == chunks[..i]
    {
      grown[i] := chunks[i];
    }
  }

  class Meter {
    const start: int
    const grace: int
    const minSpeed: int
    const window: int
    var chunks: array<Chunk>
    var count: nat
    var slow: bool
    /** Everything ever read, and the latest cutoff of any measurement. */
    ghost var history: seq<Chunk>
    ghost var measured: bool
    ghost var horizon: int

    ghost predicate Valid()
      reads this, chunks
    {
      && count <= chunks.Length
      && chunks[..count] == if measured then After(history, horizon) else history
    }

    constructor (start: int, grace: int, minSpeed: int, window: int)
      ensures Valid() && history == [] && !measured && !slow && fresh(chunks)
      ensures this.start == start && this.grace == grace && this.minSpeed == minSpeed && this.window == window
    {
      this.start, this.grace, this.minSpeed, this.window := start, grace, minSpeed, window;
      chunks, count, slow := new Chunk[0], 0, false;
      history, measured, horizon := [], false, 0;
    }

    /** Append a chunk, growing the buffer when it is full. No measurement is ahead of a read. */
    method Read(t: int, n: int)
      requires Valid() && (measured ==> t > horizon)
      modifies this, chunks
      ensures Valid() && measured == old(measured) && horizon == old(horizon) && slow == old(slow)
      ensures history == if n > 0 then old(history) + [Chunk(t, n)] else old(history)
      ensures chunks == old(chunks) || fresh(chunks)
    {
      hide After, Sum;
      if n <= 0 {
        return;
      }
      ghost var before := chunks[..count];
      if count == chunks.Length {
        chunks := Grow(chunks);
        assert chunks[..count] == before;
      }
      AfterGrows(history, Chunk(t, n), horizon);
      chunks[count] := Chunk(t, n);
      assert chunks[..count + 1] == before + [Chunk(t, n)];
      count := count + 1;
      history := history + [Chunk(t, n)];
    }

    /** Sum the window and compact the buffer onto itself. */
    method WindowSpeed(now: int) returns (speed: real)
      requires Valid()
      modifies this`count, this`measured, this`horizon, chunks
      ensures Valid() && measured && chunks == old(chunks)
      ensures horizon == if old(measured) then Max(old(horizon), now - window) else now - window
      ensures speed == Speed(Sum(After(history, horizon)), now - start, window)
      // As long as measurements do not go back in time, this is the reference speed.
      ensures old(measured) ==> old(horizon) <= now - window ==> speed == FullSpeed(history, start, now, window)
      ensures !old(measured) ==> speed == FullSpeed(history, start, now, window)
      // Bytes per second over the window, or over the age of a younger download.
      ensures now - start > window > 0 ==> speed == Sum(After(history, horizon)) as real / window as real
      ensures 0 < now - start <= window ==> speed == Sum(After(history, horizon)) as real / (now - start) as real
      ensures now - start <= 0 || window <= 0 ==> speed == 0.0
    {
      hide After, Sum;
      var cutoff := now - window;
      if measured {
        AfterTwice(history, horizon, cutoff);
      }
      var sum;
      sum, count := Compact(chunks, count, cutoff);
      horizon := if measured then Max(horizon, cutoff) else cutoff;
      measured := true;
      speed := Speed(sum, now - start, window);
    }

    /** One tick of the watcher: give up when the speed is below the floor after the grace period. */
    method Tick(now: int) returns (cancel: bool)
      requires Valid() && (measured ==> horizon <= now - window)
      modifies this`slow, this`count, this`measured, this`horizon, chunks
      ensures Valid() && chunks == old(chunks)
      ensures measured ==> horizon <= now - window
      ensures cancel <==> now - start >= grace && FullSpeed(history, start, now, window) < minSpeed as real
      ensures slow == (old(slow) || cancel)
    {
      if now - start < grace {
        return false;
      }
      var speed := WindowSpeed(now);
      cancel := speed < minSpeed as real;
      if cancel {
        slow := true;
      }
    }
  }
}
