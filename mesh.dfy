/**
 * Vertex layouts and the mesh handle bookkeeping. A layout is a list of
 * vertex attributes whose byte offsets are the running sum of the earlier
 * attributes' sizes. A mesh owns up to three GPU object names (vertex array,
 * vertex buffer, index buffer) and two counts; the names are abstract
 * naturals, 0 meaning "none", and the names the graphics driver would hand
 * out are passed in as parameters.
 */
module Meshes {

  datatype VertexAttribType = Float | Int | UnsignedInt | Byte | UnsignedByte

  /** Bytes per component, for 4-byte float and int and 1-byte char. */
  function TypeSize(t: VertexAttribType): (r: nat)
    ensures r == 1 || r == 4
    ensures r == 1 <==> t.Byte? || t.UnsignedByte?
  {
    match t
    case Float => 4
    case Int => 4
    case UnsignedInt => 4
    case Byte => 1
    case UnsignedByte => 1
  }

  datatype VertexAttrib = VertexAttrib(index: nat, size: int, attribType: VertexAttribType, normalized: bool, offset: int)

  /** Bytes one attribute takes in a vertex. */
  function ByteSize(a: VertexAttrib): int {
    a.size * TypeSize(a.attribType)
  }

  /** Bytes taken by a list of attributes, summed from the front. */
  function TotalBytes(attribs: seq<VertexAttrib>): int {
    if attribs == [] then 0 else TotalBytes(attribs[..|attribs| - 1]) + ByteSize(attribs[|attribs| - 1])
  }

  /** Each attribute starts where the earlier ones end. */
  ghost predicate PrefixOffsets(attribs: seq<VertexAttrib>) {
    forall i :: 0 <= i < |attribs| ==> attribs[i].offset == TotalBytes(attribs[..i])
  }

  /** Byte sizes add up over concatenation. */
  lemma {:induction false} TotalBytesAppend(s: seq<VertexAttrib>, t: seq<VertexAttrib>)
    ensures TotalBytes(s + t) == TotalBytes(s) + TotalBytes(t)
  {
    if t == [] {
      assert s + t == s;
    } else {
      var u := t[..|t| - 1];
      assert (s + t)[..|s + t| - 1] == s + u;
      TotalBytesAppend(s, u);
    }
  }

  /** A layout of attributes that all use one component type takes that size per component. */
  lemma {:induction false} UniformLayoutBytes(attribs: seq<VertexAttrib>, t: VertexAttribType, components: int)
    requires forall i :: 0 <= i < |attribs| ==> attribs[i].attribType == t
    requires components == Components(attribs)
    ensures TotalBytes(attribs) == components * TypeSize(t)
  {
    if attribs != [] {
      UniformLayoutBytes(attribs[..|attribs| - 1], t, Components(attribs[..|attribs| - 1]));
    }
  }

  /** Number of components (floats, ints, ...) of a vertex in the layout. */
  function Components(attribs: seq<VertexAttrib>): int {
    if attribs == [] then 0 else Components(attribs[..|attribs| - 1]) + attribs[|attribs| - 1].size
  }

  class VertexLayout {
    var attribs: seq<VertexAttrib>
    var stride: int

    ghost predicate Valid()
      reads this
    {
      stride == TotalBytes(attribs) && PrefixOffsets(attribs)
    }

    constructor ()
      ensures Valid()
      ensures attribs == [] && stride == 0
    {
      attribs := [];
      stride := 0;
    }

    /** Appends an attribute at the current stride and grows the stride by its byte size. */
    method Add(index: nat, size: int, attribType: VertexAttribType, normalized: bool := false)
      requires Valid()
      modifies this
      ensures Valid()
      ensures attribs == old(attribs) + [VertexAttrib(index, size, attribType, normalized, old(stride))]
      ensures stride == old(stride) + size * TypeSize(attribType)
    {
      var attrib := VertexAttrib(index, size, attribType, normalized, stride);
      attribs := attribs + [attrib];
      stride := stride + size * TypeSize(attribType);
      assert attribs[..|attribs| - 1] == old(attribs);
      forall i | 0 <= i < |attribs|
        ensures attribs[i].offset == TotalBytes(attribs[..i])
      {
        if i < |old(attribs)| {
          assert attribs[..i] == old(attribs)[..i];
        }
      }
    }
  }

  /** A float attribute as the presets add it: not normalised. */
  function FloatAttrib(index: nat, size: int, offset: int): VertexAttrib {
    VertexAttrib(index, size, Float, false, offset)
  }

  method PositionOnly() returns (layout: VertexLayout)
    ensures fresh(layout) && layout.Valid()
    ensures layout.attribs == [FloatAttrib(0, 3, 0)]
    ensures layout.stride == 3 * TypeSize(Float)
  {
    layout := new VertexLayout();
    layout.Add(0, 3, Float);
  }

  method PositionColor() returns (layout: VertexLayout)
    ensures fresh(layout) && layout.Valid()
    ensures layout.attribs == [FloatAttrib(0, 3, 0), FloatAttrib(1, 3, 12)]
    ensures layout.stride == 6 * TypeSize(Float)
  {
    layout := new VertexLayout();
    layout.Add(0, 3, Float);
    layout.Add(1, 3, Float);
  }

  method PositionTexture() returns (layout: VertexLayout)
    ensures fresh(layout) && layout.Valid()
    ensures layout.attribs == [FloatAttrib(0, 3, 0), FloatAttrib(1, 2, 12)]
    ensures layout.stride == 5 * TypeSize(Float)
  {
    layout := new VertexLayout();
    layout.Add(0, 3, Float);
    layout.Add(1, 2, Float);
  }

  method PositionColorTexture() returns (layout: VertexLayout)
    ensures fresh(layout) && layout.Valid()
    ensures layout.attribs == [FloatAttrib(0, 3, 0), FloatAttrib(1, 3, 12), FloatAttrib(2, 2, 24)]
    ensures layout.stride == 8 * TypeSize(Float)
  {
    layout := new VertexLayout();
    layout.Add(0, 3, Float);
    layout.Add(1, 3, Float);
    layout.Add(2, 2, Float);
  }

  method PositionNormalTexture() returns (layout: VertexLayout)
    ensures fresh(layout) && layout.Valid()
    ensures layout.attribs == [FloatAttrib(0, 3, 0), FloatAttrib(1, 3, 12), FloatAttrib(2, 2, 24)]
    ensures layout.stride == 8 * TypeSize(Float)
  {
    layout := new VertexLayout();
    layout.Add(0, 3, Float);
    layout.Add(1, 3, Float);
    layout.Add(2, 2, Float);
  }

  /** The terrain layout: position, normal, texture coordinate, tangent; 11 floats a vertex. */
  method PositionNormalTextureTangent() returns (layout: VertexLayout)
    ensures fresh(layout) && layout.Valid()
    ensures layout.attribs == [FloatAttrib(0, 3, 0), FloatAttrib(1, 3, 12), FloatAttrib(2, 2, 24), FloatAttrib(3, 3, 32)]
    ensures Components(layout.attribs) == 11
    ensures layout.stride == 11 * TypeSize(Float)
  {
    layout := new VertexLayout();
    layout.Add(0, 3, Float);
    layout.Add(1, 3, Float);
    layout.Add(2, 2, Float);
    layout.Add(3, 3, Float);
    var a := layout.attribs;
    assert a[..3][..2][..1][..0] == [];
    assert Components(a[..3][..2][..1]) == 3;
    assert Components(a[..3][..2]) == 6;
    assert Components(a[..3]) == 8;
  }

  /** The primitive mode `draw` and `drawInstanced` default to: GL_TRIANGLES, 0x0004 in OpenGL. */
  const Triangles: nat := 0x0004

  /** What a draw call issues to the driver. */
  datatype DrawCall =
    | NoDraw
    | Elements(mode: nat, count: nat)
    | Arrays(mode: nat, count: nat)
    | ElementsInstanced(mode: nat, count: nat, instances: nat)
    | ArraysInstanced(mode: nat, count: nat, instances: nat)

  class Mesh {
    var vao: nat
    var vbo: nat
    var ebo: nat
    var vertexCount: nat
    var indexCount: nat

    /** Without a vertex array nothing else is held; without an index buffer there are no indices. */
    ghost predicate Valid()
      reads this
    {
      && (vao == 0 <==> vbo == 0)
      && (vao == 0 ==> ebo == 0 && vertexCount == 0)
      && (ebo == 0 ==> indexCount == 0)
    }

    predicate HasIndices()
      reads this
    {
      ebo != 0
    }

    predicate IsValid()
      reads this
    {
      vao != 0
    }

    constructor ()
      ensures Valid()
      ensures vao == 0 && vbo == 0 && ebo == 0 && vertexCount == 0 && indexCount == 0
    {
      vao, vbo, ebo := 0, 0, 0;
      vertexCount, indexCount := 0, 0;
    }

    /** Move construction: takes over the other mesh's names and counts and zeroes it. */
    constructor MoveFrom(other: Mesh)
      requires other.Valid()
      modifies other
      ensures Valid() && other.Valid()
      ensures vao == old(other.vao) && vbo == old(other.vbo) && ebo == old(other.ebo)
      ensures vertexCount == old(other.vertexCount) && indexCount == old(other.indexCount)
      ensures other.vao == 0 && other.vbo == 0 && other.ebo == 0
      ensures other.vertexCount == 0 && other.indexCount == 0
    {
      vao, vbo, ebo := other.vao, other.vbo, other.ebo;
      vertexCount, indexCount := other.vertexCount, other.indexCount;
      new;
      other.vao, other.vbo, other.ebo := 0, 0, 0;
      other.vertexCount, other.indexCount := 0, 0;
    }

    /** Deletes whatever names are held and zeroes both counts. */
    method Release()
      modifies this
      ensures Valid()
      ensures vao == 0 && vbo == 0 && ebo == 0 && vertexCount == 0 && indexCount == 0
    {
      if ebo != 0 {
        ebo := 0;
      }
      if vbo != 0 {
        vbo := 0;
      }
      if vao != 0 {
        vao := 0;
      }
      vertexCount := 0;
      indexCount := 0;
    }

    /** Move assignment: releases this mesh, takes over the other's state and zeroes it; a no-op on itself. */
    method MoveAssign(other: Mesh)
      requires Valid() && other.Valid()
      modifies this, other
      ensures Valid() && other.Valid()
      ensures other == this ==> unchanged(this)
      ensures other != this ==>
        && vao == old(other.vao) && vbo == old(other.vbo) && ebo == old(other.ebo)
        && vertexCount == old(other.vertexCount) && indexCount == old(other.indexCount)
        && other.vao == 0 && other.vbo == 0 && other.ebo == 0
        && other.vertexCount == 0 && other.indexCount == 0
    {
      if this != other {
        Release();
        vao, vbo, ebo := other.vao, other.vbo, other.ebo;
        vertexCount, indexCount := other.vertexCount, other.indexCount;
        other.vao, other.vbo, other.ebo := 0, 0, 0;
        other.vertexCount, other.indexCount := 0, 0;
      }
    }

    /**
     * Uploads `size` bytes of vertex data under a fresh vertex array and
     * buffer (`newVao`, `newVbo`, the names the driver generates). The vertex
     * count is the number of whole strides in the data.
     */
    method SetVertices(size: nat, layout: VertexLayout, newVao: nat, newVbo: nat)
      requires newVao > 0 && newVbo > 0
      modifies this
      ensures Valid()
      ensures vao == newVao && vbo == newVbo && ebo == 0 && indexCount == 0
      ensures layout.stride > 0 ==> vertexCount == size / layout.stride
      ensures layout.stride <= 0 ==> vertexCount == 0
    {
      Release();
      vao := newVao;
      vbo := newVbo;
      if layout.stride > 0 {
        vertexCount := size / layout.stride;
      }
    }

    /**
     * Uploads `count` indices; creates the index buffer (`newEbo`) if there is
     * none yet. Does nothing without a vertex array.
     */
    method SetIndices(count: nat, newEbo: nat)
      requires Valid()
      requires newEbo > 0
      modifies this
      ensures Valid()
      ensures old(vao) == 0 ==> unchanged(this)
      ensures old(vao) != 0 ==>
        && vao == old(vao) && vbo == old(vbo) && vertexCount == old(vertexCount)
        && ebo == (if old(ebo) == 0 then newEbo else old(ebo))
        && indexCount == count
    {
      if vao == 0 {
        return;
      }
      if ebo == 0 {
        ebo := newEbo;
      }
      indexCount := count;
    }

    /** The draw issued: none without a vertex array, indexed exactly when an index buffer exists. */
    method Draw(mode: nat := Triangles) returns (call: DrawCall)
      ensures call.NoDraw? || call.Elements? || call.Arrays?
      ensures call.NoDraw? <==> vao == 0
      ensures call.Elements? <==> vao != 0 && ebo != 0
      ensures call.Elements? ==> call == Elements(mode, indexCount)
      ensures call.Arrays? ==> call == Arrays(mode, vertexCount)
    {
      if vao == 0 {
        return NoDraw;
      }
      if HasIndices() {
        call := Elements(mode, indexCount);
      } else {
        call := Arrays(mode, vertexCount);
      }
    }

    method DrawInstanced(instances: nat, mode: nat := Triangles) returns (call: DrawCall)
      ensures call.NoDraw? || call.ElementsInstanced? || call.ArraysInstanced?
      ensures call.NoDraw? <==> vao == 0
      ensures call.ElementsInstanced? <==> vao != 0 && ebo != 0
      ensures call.ElementsInstanced? ==> call == ElementsInstanced(mode, indexCount, instances)
      ensures call.ArraysInstanced? ==> call == ArraysInstanced(mode, vertexCount, instances)
    {
      if vao == 0 {
        return NoDraw;
      }
      if HasIndices() {
        call := ElementsInstanced(mode, indexCount, instances);
      } else {
        call := ArraysInstanced(mode, vertexCount, instances);
      }
    }
  }
}
