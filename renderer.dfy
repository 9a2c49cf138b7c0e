/** The per-tick maintenance of the vertex list in the render loop
    (the `Event::MainEventsCleared` arm of src/view/renderer.rs, 283-353).

    The list is refilled with a grid of quads whenever it holds fewer than a
    hundred vertices, drifts upwards on every tick that comes more than 15 ms
    after the previous one, and grows by one quad every 7 seconds. The clock
    readings and the random numbers of a tick are parameters. */
module Renderer {
  import opened VertexLayout
  import DrawableObject

  /** The number of quads in a regenerated grid (`max`). */
  const GridQuads: nat := 5000
  /** Quads per grid row (`max / 10`, that is 500). */
  const ColumnWidth: nat := 500
  /** A list shorter than this is regenerated. */
  const RegenerateBelow: nat := 100
  /** Ticks further apart than this (in ms) make the list drift. */
  const DriftGapMillis: nat := 15
  /** A quad is added once this many ms have passed since the last one. */
  const SpawnGapMillis: nat := 7000
  /** The y displacement of one drift pass. */
  const DriftStep: real := 0.0005
  /** The two edge offsets of the generated quads (`close_f`, `far_f`). */
  const CloseF: real := -0.1
  const FarF: real := -0.9
  const NanosPerMilli: nat := 1_000_000

  /** `Duration::as_millis` of a non-negative duration in nanoseconds. */
  function Millis(nanos: nat): nat {
    nanos / NanosPerMilli
  }

  /** The column the `i2` loop (lines 306-309) reduces `i` to: congruent
      to `i` modulo `ColumnWidth`, at most `ColumnWidth`, and zero only for
      zero. Because the loop test is `>`, a positive multiple of
      `ColumnWidth` stops at `ColumnWidth` itself rather than at 0. */
  function ColumnOf(i: nat): (c: nat)
    ensures c <= ColumnWidth
    ensures c % ColumnWidth == i % ColumnWidth
    ensures c == 0 <==> i == 0
  {
    if i > 0 && i % ColumnWidth == 0 then ColumnWidth else i % ColumnWidth
  }

  /** The `i2` loop: subtract `ColumnWidth` while the value exceeds it. */
  method ReduceColumn(i: nat) returns (i2: nat)
    ensures i2 == ColumnOf(i)
  {
    i2 := i;
    while i2 > ColumnWidth
      invariant i2 % ColumnWidth == i % ColumnWidth
      invariant i2 == 0 <==> i == 0
      decreases i2
    {
      i2 := i2 - ColumnWidth;
    }
  }

  /** The six vertices pushed for quad `i` of the grid, whose column the
      `i2` loop reduced to `col` (lines 310-315). */
  function GridGroup(i: nat, col: nat): seq<Vertex> {
    var x := col as real / ColumnWidth as real;
    var y := (i / ColumnWidth) as real / 10.0;
    [ Vertex((x + CloseF, y + FarF), 0, (1.0, 0.0)),
      Vertex((x + FarF, y + FarF), 0, (0.0, 0.0)),
      Vertex((x + FarF, y + CloseF), 0, (0.0, 1.0)),
      Vertex((x + CloseF, y + FarF), 0, (1.0, 0.0)),
      Vertex((x + FarF, y + CloseF), 0, (0.0, 1.0)),
      Vertex((x + CloseF, y + CloseF), 0, (1.0, 1.0)) ]
  }

  /** A generated group is a quad of half-size 0.4 with texture 0, in the
      same layout as the drawable objects' quads. */
  lemma GridGroupIsQuad(i: nat, col: nat)
    ensures GridGroup(i, col)
         == DrawableObject.QuadVertices(col as real / ColumnWidth as real - 0.5,
                                        (i / ColumnWidth) as real / 10.0 - 0.5, 0.4, 0.4, 0)
  {
  }

  /** The first `n` quads of the grid, in the order the loop pushes them. */
  function Grid(n: nat): (g: seq<Vertex>)
    ensures |g| == 6 * n
    ensures forall k :: 0 <= k < |g| ==> g[k].texI == 0
  {
    if n == 0 then [] else Grid(n - 1) + GridGroup(n - 1, ColumnOf(n - 1))
  }

  /** Group `k` of the grid is the group generated for quad `k`. */
  lemma {:induction false} GridGroupAt(n: nat, k: nat)
    requires k < n
    ensures Grid(n)[6 * k .. 6 * k + 6] == GridGroup(k, ColumnOf(k))
  {
    if k < n - 1 {
      GridGroupAt(n - 1, k);
      assert Grid(n)[6 * k .. 6 * k + 6] == Grid(n - 1)[6 * k .. 6 * k + 6];
    }
  }

  /** Every group of the grid: texture 0, the fixed texture coordinates, and
      vertex 0 = vertex 3, vertex 2 = vertex 4. */
  lemma GridGroupsAreQuads(n: nat, k: nat)
    requires k < n
    ensures var g := Grid(n)[6 * k .. 6 * k + 6];
            && g[3] == g[0] && g[4] == g[2]
            && (forall j :: 0 <= j < 6 ==> g[j].texI == 0)
            && g[0].coords == (1.0, 0.0) && g[1].coords == (0.0, 0.0) && g[2].coords == (0.0, 1.0)
            && g[3].coords == (1.0, 0.0) && g[4].coords == (0.0, 1.0) && g[5].coords == (1.0, 1.0)
  {
    GridGroupAt(n, k);
    GridGroupIsQuad(k, ColumnOf(k));
  }

  /** One drift pass on one vertex (`position[1] += 0.0005`). */
  function Lifted(v: Vertex): Vertex {
    v.(position := (v.position.0, v.position.1 + DriftStep))
  }

  /** Both drift passes on one vertex: every vertex is lifted, and those with
      texture 1 are lifted a second time. */
  function DriftedVertex(v: Vertex): Vertex {
    var w := Lifted(v);
    if w.texI == 1 then Lifted(w) else w
  }

  /** The list after the drift step (lines 327-328). */
  function Drifted(vs: seq<Vertex>): (ws: seq<Vertex>)
    ensures |ws| == |vs|
    ensures forall k :: 0 <= k < |vs| ==>
      && ws[k].texI == vs[k].texI && ws[k].coords == vs[k].coords
      && ws[k].position.0 == vs[k].position.0
      && ws[k].position.1 == vs[k].position.1 + (if vs[k].texI == 1 then 2.0 * DriftStep else DriftStep)
  {
    seq(|vs|, k requires 0 <= k < |vs| => DriftedVertex(vs[k]))
  }

  /** The texture of a spawned quad: a random `u32` modulo 2. */
  function SpawnIndex(random: U32): (t: U32)
    ensures t == 0 || t == 1
    ensures (t == 1) == (random % 2 == 1)
  {
    random % 2
  }

  /** The six vertices pushed by the spawn step (lines 339-344). */
  function SpawnGroup(index: U32, sign: real): seq<Vertex> {
    [ Vertex((sign + CloseF, FarF), index, (1.0, 0.0)),
      Vertex((sign + FarF, FarF), index, (0.0, 0.0)),
      Vertex((sign + FarF, CloseF), index, (0.0, 1.0)),
      Vertex((sign + CloseF, FarF), index, (1.0, 0.0)),
      Vertex((sign + FarF, CloseF), index, (0.0, 1.0)),
      Vertex((sign + CloseF, CloseF), index, (1.0, 1.0)) ]
  }

  /** A spawned group is a quad of half-size 0.4 centred at (sign − 0.5, −0.5). */
  lemma SpawnGroupIsQuad(index: U32, sign: real)
    ensures SpawnGroup(index, sign) == DrawableObject.QuadVertices(sign - 0.5, -0.5, 0.4, 0.4, index)
  {
  }

  /** What one tick sees: the ms since the previous tick and since the last
      spawn, and the two random draws. */
  datatype TickInput = TickInput(gapMillis: nat, sinceSpawnMillis: nat, random: U32, sign: real)

  /** The vertex list after one tick, step by step. */
  function Tick(vs: seq<Vertex>, t: TickInput): seq<Vertex> {
    var base := if |vs| < RegenerateBelow then Grid(GridQuads) else vs;
    var moved := if t.gapMillis > DriftGapMillis then Drifted(base) else base;
    if t.sinceSpawnMillis > SpawnGapMillis then moved + SpawnGroup(SpawnIndex(t.random), t.sign) else moved
  }

  /** A short list is replaced by the full grid of 6 × 5000 vertices, and the
      tick then only drifts it and may add one quad. */
  lemma TickRegenerates(vs: seq<Vertex>, t: TickInput)
    requires |vs| < RegenerateBelow
    ensures var base := if t.gapMillis > DriftGapMillis then Drifted(Grid(GridQuads)) else Grid(GridQuads);
            && |Grid(GridQuads)| == 30000
            && Tick(vs, t) == if t.sinceSpawnMillis > SpawnGapMillis then base + SpawnGroup(SpawnIndex(t.random), t.sign) else base
  {
  }

  /** A long list loses nothing: its vertices stay in place, drifted or not,
      and at most one quad of texture `random mod 2` is appended. */
  lemma TickExtends(vs: seq<Vertex>, t: TickInput)
    requires |vs| >= RegenerateBelow
    ensures var r := Tick(vs, t);
            && |r| == |vs| + (if t.sinceSpawnMillis > SpawnGapMillis then 6 else 0)
            && r[..|vs|] == (if t.gapMillis > DriftGapMillis then Drifted(vs) else vs)
            && (t.sinceSpawnMillis > SpawnGapMillis ==>
                  r[|vs|..] == SpawnGroup(SpawnIndex(t.random), t.sign)
                  && forall k :: |vs| <= k < |r| ==> r[k].texI == t.random % 2)
  {
  }

  /** Every tick leaves at least a hundred vertices and keeps the length a
      multiple of six. */
  lemma TickInvariant(vs: seq<Vertex>, t: TickInput)
    requires |vs| % 6 == 0
    ensures |Tick(vs, t)| % 6 == 0 && |Tick(vs, t)| >= RegenerateBelow
  {
  }

  /** The list after a run of ticks. */
  function Run(vs: seq<Vertex>, ts: seq<TickInput>): seq<Vertex>
    decreases |ts|
  {
    if ts == [] then vs else Run(Tick(vs, ts[0]), ts[1..])
  }

  /** How many ticks of a run replace the list by a fresh grid. */
  function Regenerations(vs: seq<Vertex>, ts: seq<TickInput>): nat
    decreases |ts|
  {
    if ts == [] then 0
    else (if |vs| < RegenerateBelow then 1 else 0) + Regenerations(Tick(vs, ts[0]), ts[1..])
  }

  /** From a list whose length is a multiple of six, every run keeps it so,
      and any non-empty run leaves at least a hundred vertices. */
  lemma {:induction false} RunInvariant(vs: seq<Vertex>, ts: seq<TickInput>)
    requires |vs| % 6 == 0
    ensures |Run(vs, ts)| % 6 == 0
    ensures ts != [] ==> |Run(vs, ts)| >= RegenerateBelow
    decreases |ts|
  {
    if ts != [] {
      TickInvariant(vs, ts[0]);
      RunInvariant(Tick(vs, ts[0]), ts[1..]);
      if ts[1..] == [] {
        assert Run(vs, ts) == Tick(vs, ts[0]);
      }
    }
  }

  /** The grid is generated at most once in any run, and never once the list
      holds a hundred vertices. */
  lemma {:induction false} AtMostOneRegeneration(vs: seq<Vertex>, ts: seq<TickInput>)
    ensures Regenerations(vs, ts) <= 1
    ensures |vs| >= RegenerateBelow ==> Regenerations(vs, ts) == 0
    decreases |ts|
  {
    if ts != [] {
      var next := Tick(vs, ts[0]);
      if |vs| >= RegenerateBelow {
        TickExtends(vs, ts[0]);
      } else {
        TickRegenerates(vs, ts[0]);
      }
      assert |next| >= RegenerateBelow;
      AtMostOneRegeneration(next, ts[1..]);
    }
  }

  /** The state the render loop's closure keeps between events: the vertex
      list (line 95) and the two timestamps (lines 93-94), in nanoseconds. */
  class RenderLoop {
    var vertices: seq<Vertex>
    var lastChange: int
    var lastImageAdded: int

    /** The list is always made of whole six-vertex quads. */
    ghost predicate Valid()
      reads this
    {
      |vertices| % 6 == 0
    }

    /** Lines 93-95: both timestamps read the clock, the list starts empty. */
    constructor (start: int)
      ensures Valid()
      ensures vertices == [] && lastChange == start && lastImageAdded == start
    {
      vertices := [];
      lastChange := start;
      lastImageAdded := start;
    }

    /** Lines 301-317: replace the list by a fresh one and push the grid. */
    method Regenerate()
      modifies this`vertices
      ensures vertices == Grid(GridQuads)
    {
      vertices := [];
      for i := 0 to GridQuads
        invariant vertices == Grid(i)
      {
        var i2 := ReduceColumn(i);
        vertices := vertices + GridGroup(i, i2);
      }
    }

    /** Lines 327-328: lift every vertex, then lift those of texture 1 again. */
    method Drift()
      modifies this`vertices
      ensures vertices == Drifted(old(vertices))
    {
      ghost var before := vertices;
      var n := |vertices|;
      for k := 0 to n
        invariant |vertices| == n
        invariant forall j :: 0 <= j < k ==> vertices[j] == Lifted(before[j])
        invariant forall j :: k <= j < n ==> vertices[j] == before[j]
      {
        vertices := vertices[k := Lifted(vertices[k])];
      }
      for k := 0 to n
        invariant |vertices| == n
        invariant forall j :: 0 <= j < k ==> vertices[j] == DriftedVertex(before[j])
        invariant forall j :: k <= j < n ==> vertices[j] == Lifted(before[j])
      {
        if vertices[k].texI == 1 {
          vertices := vertices[k := Lifted(vertices[k])];
        }
      }
      assert vertices == Drifted(before);
    }

    /** Lines 334-344: push one quad with texture `random mod 2`. */
    method Spawn(random: U32, sign: real)
      modifies this`vertices
      ensures vertices == old(vertices) + SpawnGroup(SpawnIndex(random), sign)
    {
      var index := SpawnIndex(random);
      vertices := vertices + SpawnGroup(index, sign);
    }

    /** One `MainEventsCleared` event at clock reading `now`. The source's
        `duration_since(..).unwrap()` panics for a clock earlier than a
        stored timestamp, hence the second requires. */
    method MainEventsCleared(now: int, random: U32, sign: real)
      requires Valid()
      requires lastChange <= now && lastImageAdded <= now
      modifies this
      ensures Valid()
      ensures vertices == Tick(old(vertices), TickInput(Millis(now - old(lastChange)),
                                                          Millis(now - old(lastImageAdded)), random, sign))
      ensures |vertices| >= RegenerateBelow
      ensures lastChange == now
      ensures lastImageAdded == if Millis(now - old(lastImageAdded)) > SpawnGapMillis then now else old(lastImageAdded)
    {
      ghost var t := TickInput(Millis(now - lastChange), Millis(now - lastImageAdded), random, sign);
      ghost var before := vertices;
      var timeDiff := Millis(now - lastChange);
      lastChange := now;
      if |vertices| < RegenerateBelow {
        Regenerate();
      }
      if timeDiff > DriftGapMillis {
        lastChange := now;
        Drift();
      }
      if Millis(now - lastImageAdded) > SpawnGapMillis {
        lastImageAdded := now;
        Spawn(random, sign);
      }
      TickInvariant(before, t);
    }
  }
}
