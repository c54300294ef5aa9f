/**
 * The per-frame geometry arena of src/render.rs (`DrawContext`), the quad that
 * `draw_rect` appends, and the tail of a frame (`RendererState::draw`): run the
 * application's draw callback, upload both buffers, clear the arena.
 */
module Render {
  import opened Primitives
  import opened Colors

  /** `Vertex`: position, colour channels and texture coordinate, each an `f32` array. */
  datatype Vertex = Vertex(pos: (F32, F32), color: (F32, F32, F32, F32), texCoord: (F32, F32))

  /** `Vertex::new`. */
  function NewVertex(x: F32, y: F32, u: F32, v: F32, color: Color): (r: Vertex)
    ensures r.pos == (x, y) && r.texCoord == (u, v)
    ensures Color(r.color.0, r.color.1, r.color.2, r.color.3) == color
  {
    Vertex((x, y), Channels(color), (u, v))
  }

  /** The arguments of one `draw_rect` call. */
  datatype Rect = Rect(x: F32, y: F32, w: F32, h: F32, color: Color)

  /** The index literal of `draw_rect`: two triangles in quad-local numbering. */
  const QuadIndices: seq<U16> := [0, 1, 3, 0, 3, 2]

  /** The four vertices `draw_rect` builds, in the order it builds them. */
  function QuadVertices(r: Rect): (q: seq<Vertex>)
    ensures |q| == 4
  {
    [ NewVertex(r.x, r.y, 0.0, 0.0, r.color),
      NewVertex(r.x, F32Add(r.y, r.h), 0.0, 0.0, r.color),
      NewVertex(F32Add(r.x, r.w), r.y, 0.0, 0.0, r.color),
      NewVertex(F32Add(r.x, r.w), F32Add(r.y, r.h), 0.0, 0.0, r.color) ]
  }

  /** Which coordinate of the call lands in which vertex of the quad. */
  lemma QuadCorners(r: Rect)
    ensures QuadVertices(r)[0].pos == (r.x, r.y)
    ensures QuadVertices(r)[1].pos.0 == r.x && QuadVertices(r)[1].pos.1 == F32Add(r.y, r.h)
    ensures QuadVertices(r)[2].pos.0 == F32Add(r.x, r.w) && QuadVertices(r)[2].pos.1 == r.y
    ensures QuadVertices(r)[3].pos == (F32Add(r.x, r.w), F32Add(r.y, r.h))
    ensures forall k :: 0 <= k < 4 ==>
      QuadVertices(r)[k].texCoord == (0.0, 0.0) && QuadVertices(r)[k].color == Channels(r.color)
  {
  }

  /** The two buffers of a `DrawContext`, as values. */
  datatype Arena = Arena(vertices: seq<Vertex>, indices: seq<U16>) {
    /**
     * What every reachable arena satisfies: whole quads only (four vertices to six
     * indices) and every index names one of the four vertices of a quad.
     */
    ghost predicate Valid() {
      |vertices| % 4 == 0 && 2 * |indices| == 3 * |vertices| &&
      forall k :: 0 <= k < |indices| ==> indices[k] < 4
    }
  }

  /** Appending one quad keeps the arena invariant. */
  lemma AppendQuadValid(a: Arena, r: Rect)
    requires a.Valid()
    ensures Arena(a.vertices + QuadVertices(r), a.indices + QuadIndices).Valid()
  {
  }

  /**
   * In a valid non-empty arena every stored index is a position of the vertex
   * buffer, although it always points into the first quad.
   */
  lemma ValidIndicesInRange(a: Arena)
    requires a.Valid() && |a.vertices| > 0
    ensures forall k :: 0 <= k < |a.indices| ==> a.indices[k] as int < |a.vertices|
  {
  }

  /** The vertex buffer after the calls `rs` on an empty arena. */
  function RectsVertices(rs: seq<Rect>): (vs: seq<Vertex>)
    ensures |vs| == 4 * |rs|
    ensures forall k :: 0 <= k < |vs| ==> vs[k] == QuadVertices(rs[k / 4])[k % 4]
  {
    if rs == [] then []
    else
      var prev := RectsVertices(rs[..|rs| - 1]);
      var vs := prev + QuadVertices(rs[|rs| - 1]);
      assert forall k :: 0 <= k < |prev| ==> vs[k] == prev[k];
      vs
  }

  /** The index buffer after the calls `rs` on an empty arena: the literal repeated, never rebased. */
  function RectsIndices(rs: seq<Rect>): (ix: seq<U16>)
    ensures |ix| == 6 * |rs|
    ensures forall k :: 0 <= k < |ix| ==> ix[k] == QuadIndices[k % 6]
  {
    if rs == [] then []
    else RectsIndices(rs[..|rs| - 1]) + QuadIndices
  }

  /**
   * Without rebasing, the i-th index of a frame, read against the whole vertex
   * buffer, names a vertex of the first rectangle drawn.
   */
  lemma IndicesSelectFirstQuad(rs: seq<Rect>, k: nat)
    requires k < |RectsIndices(rs)|
    ensures RectsIndices(rs)[k] as int < |RectsVertices(rs)|
    ensures RectsVertices(rs)[RectsIndices(rs)[k]] == QuadVertices(rs[0])[RectsIndices(rs)[k]]
  {
    var ix := RectsIndices(rs);
    var vs := RectsVertices(rs);
    var i := ix[k] as int;
    assert i == QuadIndices[k % 6] as int;
    assert i < 4;
    assert 0 < |rs| && i < |vs|;
    assert vs[i] == QuadVertices(rs[i / 4])[i % 4];
    assert i / 4 == 0 && i % 4 == i;
  }

  /** The two mutators an application can call on the arena. */
  datatype DrawCommand = DrawRect(rect: Rect) | Clear

  /** The arena after running `cmds` on an empty arena, one method effect at a time. */
  function Replay(cmds: seq<DrawCommand>): (a: Arena)
    ensures a.Valid()
  {
    if cmds == [] then Arena([], [])
    else
      var prev := Replay(cmds[..|cmds| - 1]);
      match cmds[|cmds| - 1]
      case Clear => Arena([], [])
      case DrawRect(r) =>
        AppendQuadValid(prev, r);
        Arena(prev.vertices + QuadVertices(r), prev.indices + QuadIndices)
  }

  /** The rectangles drawn after the last `Clear` of `cmds`. */
  function SinceLastClear(cmds: seq<DrawCommand>): (rs: seq<Rect>)
  {
    if cmds == [] then []
    else match cmds[|cmds| - 1]
      case Clear => []
      case DrawRect(r) => SinceLastClear(cmds[..|cmds| - 1]) + [r]
  }

  /** A frame's arena holds exactly the quads of the rectangles drawn since the last clear, in order. */
  lemma {:induction false} ReplayIsRects(cmds: seq<DrawCommand>)
    ensures Replay(cmds) == Arena(RectsVertices(SinceLastClear(cmds)), RectsIndices(SinceLastClear(cmds)))
  {
    if cmds != [] {
      var init := cmds[..|cmds| - 1];
      ReplayIsRects(init);
      match cmds[|cmds| - 1]
      case Clear =>
      case DrawRect(r) =>
        var rs := SinceLastClear(init) + [r];
        assert rs[..|rs| - 1] == SinceLastClear(init);
    }
  }

  /** `DrawContext`: the two growable buffers of a frame. */
  class DrawContext {
    var vertexBuffer: seq<Vertex>
    var indexBuffer: seq<U16>

    ghost function Contents(): Arena
      reads this
    {
      Arena(vertexBuffer, indexBuffer)
    }

    ghost predicate Valid()
      reads this
    {
      Contents().Valid()
    }

    /** `DrawContext::new`; the reserved capacity of 10000 is a hint with no observable effect. */
    constructor ()
      ensures Valid()
      ensures vertexBuffer == [] && indexBuffer == []
    {
      vertexBuffer := [];
      indexBuffer := [];
    }

    /** `clear`: both buffers become empty, whatever they held. */
    method Clear()
      modifies this
      ensures Valid()
      ensures vertexBuffer == [] && indexBuffer == []
    {
      vertexBuffer := [];
      indexBuffer := [];
    }

    /** `draw_rect`: append the quad's four vertices and the six literal indices. */
    method DrawRect(x: F32, y: F32, w: F32, h: F32, color: Color)
      modifies this
      ensures vertexBuffer == old(vertexBuffer) + QuadVertices(Rect(x, y, w, h, color))
      ensures indexBuffer == old(indexBuffer) + QuadIndices
      ensures old(Valid()) ==> Valid()
    {
      ghost var before := Contents();
      vertexBuffer := vertexBuffer + QuadVertices(Rect(x, y, w, h, color));
      indexBuffer := indexBuffer + QuadIndices;
      if before.Valid() {
        AppendQuadValid(before, Rect(x, y, w, h, color));
      }
    }
  }

  /**
   * The part of `RendererState` this model keeps: the arena and, as ghost state,
   * what the backend's vertex and index buffers last received and how many frames
   * were committed.
   */
  class Renderer {
    const drawContext: DrawContext
    ghost var uploadedVertices: seq<Vertex>
    ghost var uploadedIndices: seq<U16>
    ghost var committedFrames: nat

    /** Between frames the arena is empty. */
    ghost predicate Valid()
      reads this, drawContext
    {
      drawContext.Valid() && drawContext.vertexBuffer == [] && drawContext.indexBuffer == []
    }

    /** The arena part of `RendererState::new`. */
    constructor ()
      ensures Valid() && fresh(drawContext)
      ensures uploadedVertices == [] && uploadedIndices == [] && committedFrames == 0
    {
      drawContext := new DrawContext();
      uploadedVertices, uploadedIndices := [], [];
      committedFrames := 0;
    }

    /**
     * `RendererState::draw`, with the application's draw callback given as the
     * commands it issues. The callback runs first, the backend then receives the
     * whole arena, the frame is committed and the arena is cleared.
     */
    method Draw(callback: seq<DrawCommand>)
      requires Valid()
      modifies this, drawContext
      ensures Valid()
      ensures Arena(uploadedVertices, uploadedIndices) == Replay(callback)
      ensures committedFrames == old(committedFrames) + 1
    {
      var i := 0;
      while i < |callback|
        invariant 0 <= i <= |callback|
        invariant drawContext.Contents() == Replay(callback[..i])
        modifies drawContext
      {
        assert callback[..i + 1][..i] == callback[..i];
        match callback[i] {
          case DrawRect(r) => drawContext.DrawRect(r.x, r.y, r.w, r.h, r.color);
          case Clear => drawContext.Clear();
        }
        i := i + 1;
      }
      assert callback[..i] == callback;
      uploadedVertices := drawContext.vertexBuffer;
      uploadedIndices := drawContext.indexBuffer;
      committedFrames := committedFrames + 1;
      drawContext.Clear();
    }
  }
}
