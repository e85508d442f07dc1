/**
  The static cube mesh the renderer uploads: `VERTEX_DATA`, 24 vertices of
  three coordinates each (four per face of the cube), and `INDICES`, two
  triangles per face, drawn with a count of 36.
 */
module Mesh {

  const VertexData: seq<real> := [
    -0.5, -0.5, -0.5,
     0.5, -0.5, -0.5,
    -0.5, -0.5,  0.5,
     0.5, -0.5,  0.5,

    -0.5, -0.5,  0.5,
     0.5, -0.5,  0.5,
    -0.5,  0.5,  0.5,
     0.5,  0.5,  0.5,

    -0.5, -0.5, -0.5,
    -0.5, -0.5,  0.5,
    -0.5,  0.5, -0.5,
    -0.5,  0.5,  0.5,

     0.5, -0.5, -0.5,
     0.5, -0.5,  0.5,
     0.5,  0.5, -0.5,
     0.5,  0.5,  0.5,

    -0.5, -0.5, -0.5,
     0.5, -0.5, -0.5,
    -0.5,  0.5, -0.5,
     0.5,  0.5, -0.5,

    -0.5,  0.5, -0.5,
     0.5,  0.5, -0.5,
    -0.5,  0.5,  0.5,
     0.5,  0.5,  0.5]

  /** `GLuint` indices into the vertex buffer. */
  const Indices: seq<nat> := [
     0,  1,  2,
     1,  2,  3,

     4,  5,  6,
     5,  6,  7,

     8,  9, 10,
     9, 10, 11,

    12, 13, 14,
    13, 14, 15,

    16, 17, 18,
    17, 18, 19,

    20, 21, 22,
    21, 22, 23]

  /** The index count passed to `glDrawElements` each frame. */
  const DrawCount: nat := 36

  function VertexCount(): nat
  {
    |VertexData| / 3
  }

  /**
    The index buffer holds exactly the number of indices that are drawn, and
    each of them names one of the 24 vertices of the 72-value vertex buffer.
   */
  lemma IndicesInBounds()
    ensures |VertexData| == 72 && VertexCount() == 24
    ensures |Indices| == DrawCount
    ensures forall i :: 0 <= i < |Indices| ==> Indices[i] < VertexCount()
  {
  }

  /** No vertex is uploaded in vain: every vertex is used by some triangle. */
  lemma EveryVertexDrawn()
    ensures forall v :: 0 <= v < VertexCount() ==> v in Indices
  {
    forall v | 0 <= v < VertexCount()
      ensures v in Indices
    {
      assert v in {0, 1, 2, 3, 4, 5, 6, 7, 8, 9, 10, 11, 12, 13, 14, 15, 16, 17, 18, 19, 20, 21, 22, 23};
    }
  }
}
