/** The batching renderer: one shared vertex buffer filled per frame, one draw per frame. */
module Renderer {
  import opened Geometry
  import opened IndexPattern

  /** Capacity of the vertex buffer, in vertices: four per quad slot. */
  const VERTEX_CAPACITY: nat := MAX_SPRITES * 4

  /** The vertex buffer contents that submitting rs in order produces. */
  function Batch(rs: seq<Renderable>): (vs: seq<VertexData>)
    ensures |vs| == 4 * |rs|
  {
    if rs == [] then [] else Batch(rs[..|rs| - 1]) + QuadVertices(rs[|rs| - 1])
  }

  /** Submitting one more renderable appends its four vertices. */
  lemma BatchAppend(rs: seq<Renderable>, r: Renderable)
    ensures Batch(rs + [r]) == Batch(rs) + QuadVertices(r)
  {
    assert (rs + [r])[..|rs|] == rs;
  }

  /** Vertices 4j .. 4j+3 of a batch are the quad of the j-th renderable submitted. */
  lemma {:induction false} BatchQuad(rs: seq<Renderable>, j: nat)
    requires j < |rs|
    ensures Batch(rs)[4 * j .. 4 * j + 4] == QuadVertices(rs[j])
  {
    var init := rs[..|rs| - 1];
    if j < |rs| - 1 {
      BatchQuad(init, j);
      assert Batch(rs)[..4 * |init|] == Batch(init);
      assert Batch(rs)[4 * j .. 4 * j + 4] == Batch(init)[4 * j .. 4 * j + 4];
    } else {
      assert Batch(rs)[4 * j ..] == QuadVertices(rs[j]);
    }
  }

  /** Index-buffer slot j, drawn over a batch, reads the j-th renderable's four vertices:
      the first triangle its corners 0, 1, 2 and the second its corners 2, 3, 0, which by
      QuadTriangles wind the same way and together cover its rectangle. */
  lemma BatchSlot(rs: seq<Renderable>, n: nat, j: nat)
    requires j < |rs| <= n
    ensures var b, p, vs := Batch(rs), Pattern(n), QuadVertices(rs[j]);
      p[6 * j] < |b| && p[6 * j + 1] < |b| && p[6 * j + 2] < |b| &&
      p[6 * j + 3] < |b| && p[6 * j + 4] < |b| && p[6 * j + 5] < |b| &&
      b[p[6 * j]] == vs[0] && b[p[6 * j + 1]] == vs[1] && b[p[6 * j + 2]] == vs[2] &&
      b[p[6 * j + 3]] == vs[2] && b[p[6 * j + 4]] == vs[3] && b[p[6 * j + 5]] == vs[0]
  {
    PatternQuad(n, j);
    BatchQuad(rs, j);
    var p := Pattern(n);
    assert p[6 * j .. 6 * j + 6] == QuadIndices(j);
    assert p[6 * j] == 4 * j && p[6 * j + 1] == 4 * j + 1 && p[6 * j + 2] == 4 * j + 2;
    assert p[6 * j + 3] == 4 * j + 2 && p[6 * j + 4] == 4 * j + 3 && p[6 * j + 5] == 4 * j;
  }

  /** Four records of a quad written from `start` on, with every other record untouched,
      put the quad right after the untouched prefix. */
  lemma QuadWritten(before: seq<VertexData>, after: seq<VertexData>, start: nat, quad: seq<VertexData>)
    requires |quad| == 4 && start + 4 <= |before| == |after|
    requires after[start] == quad[0] && after[start + 1] == quad[1]
    requires after[start + 2] == quad[2] && after[start + 3] == quad[3]
    requires forall k :: 0 <= k < start ==> after[k] == before[k]
    ensures after[..start + 4] == before[..start] + quad
    ensures after[start .. start + 4] == quad
  {
    assert after[start .. start + 4] == quad;
    assert after[..start] == before[..start];
    assert after[..start + 4] == after[..start] + after[start .. start + 4];
  }

  /** The renderer's state. `maxSprites` is the capacity in quads, `buffer` the vertex
      buffer's storage (four vertices per quad) and `cursor` the
      position of the write pointer in it; `count` is the number of indices to draw;
      `indices` is the contents of the index buffer; `draws` records, oldest first, the
      index count of every draw call issued. The ghost `mapped` says whether the vertex
      buffer is mapped for writing, `frame` lists the renderables submitted since the last
      begin and `pending` those submitted since the last present. */
  class Renderer2D {
    const maxSprites: nat
    var buffer: array<VertexData>
    var cursor: nat
    var count: nat
    var indices: seq<nat>
    var draws: seq<nat>
    ghost var mapped: bool
    ghost var frame: seq<Renderable>
    ghost var pending: seq<Renderable>

    ghost predicate Valid()
      reads this, buffer
    {
      0 < maxSprites &&
      buffer.Length == 4 * maxSprites &&
      indices == Pattern(maxSprites) &&
      cursor == 4 * |frame| <= buffer.Length &&
      buffer[..cursor] == Batch(frame) &&
      count == 6 * |pending|
    }

    /** Allocates the vertex buffer for MAX_SPRITES quads and builds the index buffer. */
    constructor ()
      ensures Valid() && fresh(buffer)
      ensures maxSprites == MAX_SPRITES && buffer.Length == VERTEX_CAPACITY
      ensures |indices| == INDICES_SIZE
      ensures cursor == 0 && count == 0 && draws == []
      ensures !mapped && frame == [] && pending == []
    {
      var n := MAX_SPRITES;
      maxSprites := n;
      buffer := new VertexData[4 * n];
      var ibo := GenerateIndices(n);
      indices := ibo[..];
      cursor, count, draws := 0, 0, [];
      mapped, frame, pending := false, [], [];
    }

    /** Writes the renderable's four corners at the cursor, all in its colour, advances the
        cursor past them and adds six indices to the count. */
    method Submit(r: Renderable)
      requires Valid() && mapped
      requires cursor + 4 <= buffer.Length
      modifies this`cursor, this`count, this`frame, this`pending, buffer
      ensures Valid()
      ensures cursor == old(cursor) + 4 && count == old(count) + 6
      ensures buffer[old(cursor) .. cursor] == QuadVertices(r)
      ensures forall k :: 0 <= k < buffer.Length && !(old(cursor) <= k < cursor) ==>
                buffer[k] == old(buffer[k])
      ensures frame == old(frame) + [r] && pending == old(pending) + [r]
    {
      var pos, size, color := r.pos, r.size, r.color;
      ghost var start, before := cursor, buffer[..];
      // `at` steps the write pointer one record at a time; the field takes its final value.
      var at := cursor;

      buffer[at] := VertexData(pos, color);
      at := at + 1;

      buffer[at] := VertexData(Vector3(pos.x, pos.y + size.y, pos.z), color);
      at := at + 1;

      buffer[at] := VertexData(Vector3(pos.x + size.x, pos.y + size.y, pos.z), color);
      at := at + 1;

      buffer[at] := VertexData(Vector3(pos.x + size.x, pos.y, pos.z), color);
      at := at + 1;
      cursor := at;

      count := count + 6;

      QuadWritten(before, buffer[..], start, QuadVertices(r));

      BatchAppend(frame, r);
      frame := frame + [r];
      pending := pending + [r];
    }

    /** Maps the vertex buffer for writing and puts the cursor at its start. */
    method Begin()
      requires Valid()
      modifies this`cursor, this`mapped, this`frame
      ensures Valid()
      ensures cursor == 0 && mapped && frame == []
    {
      cursor := 0;
      mapped, frame := true, [];
    }

    /** Unmaps the vertex buffer, giving it back to the GPU. */
    method End()
      requires Valid()
      modifies this`mapped
      ensures Valid() && !mapped
    {
      mapped := false;
    }

    /** Draws the pending indices and resets the count. */
    method Present()
      requires Valid() && !mapped
      modifies this`count, this`draws, this`pending
      ensures Valid()
      ensures draws == old(draws) + [old(count)] && old(count) == 6 * |old(pending)|
      ensures count == 0 && pending == []
    {
      draws := draws + [count];
      count := 0;
      pending := [];
    }
  }

  /** One frame as a host loop drives it: begin, submit every item, end, present. The draw
      issued covers six indices per item on top of whatever was pending, the buffer starts
      with exactly this frame's vertices, and every index drawn from a fresh count addresses
      one of them. */
  method RenderFrame(rd: Renderer2D, items: seq<Renderable>)
    requires rd.Valid() && !rd.mapped && |items| <= rd.maxSprites
    modifies rd, rd.buffer
    ensures rd.Valid() && !rd.mapped && rd.buffer == old(rd.buffer)
    ensures rd.draws == old(rd.draws) + [old(rd.count) + 6 * |items|] && rd.count == 0
    ensures rd.cursor == 4 * |items| && rd.buffer[..rd.cursor] == Batch(items)
    ensures old(rd.count) == 0 ==>
              forall j :: 0 <= j < rd.draws[|rd.draws| - 1] ==> rd.indices[j] < rd.cursor
  {
    rd.Begin();
    for i := 0 to |items|
      invariant rd.Valid() && rd.mapped && rd.buffer == old(rd.buffer)
      invariant rd.frame == items[..i] && rd.pending == old(rd.pending) + items[..i]
      invariant rd.draws == old(rd.draws)
    {
      rd.Submit(items[i]);
      assert items[..i + 1] == items[..i] + [items[i]];
    }
    assert items[..|items|] == items;
    rd.End();
    rd.Present();
    DrawnIndicesBounded(rd.maxSprites, |items|);
  }

  /** Two full cycles: each draws only its own submission, and the second overwrites the
      vertices of the first. */
  method TwoCycles(rd: Renderer2D, a: Renderable, b: Renderable)
    requires rd.Valid() && !rd.mapped && rd.count == 0
    modifies rd, rd.buffer
    ensures rd.Valid() && rd.draws == old(rd.draws) + [6, 6]
    ensures rd.buffer[..4] == QuadVertices(b)
  {
    RenderFrame(rd, [a]);
    RenderFrame(rd, [b]);
    BatchAppend([], b);
    assert [] + [b] == [b];
  }

  /** A second present with no submission in between draws nothing. */
  method PresentTwice(rd: Renderer2D)
    requires rd.Valid() && !rd.mapped
    modifies rd
    ensures rd.Valid() && rd.draws == old(rd.draws) + [old(rd.count), 0]
  {
    rd.Present();
    rd.Present();
  }
}
