/**
 * A surface material: a colour tint plus the pixel and vertex shaders that
 * draw with it. The shaders are held through shared handles whose contents
 * the material never inspects, so their types are parameters here: any value
 * stands for a handle, and equal values for the same handle.
 */
module Materials {
  import opened Math

  /** The three stored fields, as a value. */
  datatype MaterialState<PixelShader, VertexShader> =
    MaterialState(colorTint: Float4, pixelShader: PixelShader, vertexShader: VertexShader)

  /** The field a setter writes. */
  datatype Field = ColorTint | PixelShaderField | VertexShaderField

  /** The effect of a setter, one field overwritten and the others kept. */
  function WithColorTint<P, V>(s: MaterialState<P, V>, c: Float4): (r: MaterialState<P, V>)
    ensures r.colorTint == c
    ensures Untouched(s, r, ColorTint)
  {
    s.(colorTint := c)
  }

  function WithPixelShader<P, V>(s: MaterialState<P, V>, p: P): (r: MaterialState<P, V>)
    ensures r.pixelShader == p
    ensures Untouched(s, r, PixelShaderField)
  {
    s.(pixelShader := p)
  }

  function WithVertexShader<P, V>(s: MaterialState<P, V>, v: V): (r: MaterialState<P, V>)
    ensures r.vertexShader == v
    ensures Untouched(s, r, VertexShaderField)
  {
    s.(vertexShader := v)
  }

  /** Every field other than `f` is the same in `s` and `r`. */
  ghost predicate Untouched<P, V>(s: MaterialState<P, V>, r: MaterialState<P, V>, f: Field)
  {
    && (f != ColorTint ==> r.colorTint == s.colorTint)
    && (f != PixelShaderField ==> r.pixelShader == s.pixelShader)
    && (f != VertexShaderField ==> r.vertexShader == s.vertexShader)
  }

  /**
   * Setters of different fields commute, and a second write to the same field
   * wins: the final state depends only on the last value written to each field.
   */
  lemma SettersCommute<P, V>(s: MaterialState<P, V>, c: Float4, p: P, v: V)
    ensures WithPixelShader(WithColorTint(s, c), p) == WithColorTint(WithPixelShader(s, p), c)
    ensures WithVertexShader(WithColorTint(s, c), v) == WithColorTint(WithVertexShader(s, v), c)
    ensures WithVertexShader(WithPixelShader(s, p), v) == WithPixelShader(WithVertexShader(s, v), p)
    ensures WithVertexShader(WithPixelShader(WithColorTint(s, c), p), v) == MaterialState(c, p, v)
  {
  }

  lemma LastWriteWins<P, V>(s: MaterialState<P, V>, c1: Float4, c2: Float4, p1: P, p2: P, v1: V, v2: V)
    ensures WithColorTint(WithColorTint(s, c1), c2) == WithColorTint(s, c2)
    ensures WithPixelShader(WithPixelShader(s, p1), p2) == WithPixelShader(s, p2)
    ensures WithVertexShader(WithVertexShader(s, v1), v2) == WithVertexShader(s, v2)
  {
  }

  /** Writing back the value a field already holds changes nothing. */
  lemma SetToCurrentIsIdentity<P, V>(s: MaterialState<P, V>)
    ensures WithColorTint(s, s.colorTint) == s
    ensures WithPixelShader(s, s.pixelShader) == s
    ensures WithVertexShader(s, s.vertexShader) == s
  {
  }

  class Material<PixelShader, VertexShader> {
    var colorTint: Float4
    var pixelShader: PixelShader
    var vertexShader: VertexShader

    ghost function State(): MaterialState<PixelShader, VertexShader>
      reads this
    {
      MaterialState(colorTint, pixelShader, vertexShader)
    }

    /** Stores the three arguments as given. */
    constructor (colorTint: Float4, pixelShader: PixelShader, vertexShader: VertexShader)
      ensures this.colorTint == colorTint
      ensures this.pixelShader == pixelShader
      ensures this.vertexShader == vertexShader
      ensures State() == MaterialState(colorTint, pixelShader, vertexShader)
    {
      this.colorTint := colorTint;
      this.pixelShader := pixelShader;
      this.vertexShader := vertexShader;
    }

    method GetPixelShader() returns (p: PixelShader)
      ensures p == pixelShader
    {
      p := pixelShader;
    }

    method GetVertexShader() returns (v: VertexShader)
      ensures v == vertexShader
    {
      v := vertexShader;
    }

    method GetColorTint() returns (c: Float4)
      ensures c == colorTint
    {
      c := colorTint;
    }

    method SetPixelShader(pixelShader: PixelShader)
      modifies this
      ensures this.pixelShader == pixelShader
      ensures colorTint == old(colorTint) && vertexShader == old(vertexShader)
      ensures State() == WithPixelShader(old(State()), pixelShader)
    {
      this.pixelShader := pixelShader;
    }

    method SetVertexShader(vertexShader: VertexShader)
      modifies this
      ensures this.vertexShader == vertexShader
      ensures colorTint == old(colorTint) && pixelShader == old(pixelShader)
      ensures State() == WithVertexShader(old(State()), vertexShader)
    {
      this.vertexShader := vertexShader;
    }

    method SetColorTint(colorTint: Float4)
      modifies this
      ensures this.colorTint == colorTint
      ensures pixelShader == old(pixelShader) && vertexShader == old(vertexShader)
      ensures State() == WithColorTint(old(State()), colorTint)
    {
      this.colorTint := colorTint;
    }
  }

  /** Each get after its set returns the value set, and the final state holds exactly the three values set. */
  method SetThenGet<P, V>(m: Material<P, V>, c: Float4, p: P, v: V)
    returns (c': Float4, p': P, v': V)
    modifies m
    ensures c' == c && p' == p && v' == v
    ensures m.State() == MaterialState(c, p, v)
  {
    m.SetColorTint(c);
    c' := m.GetColorTint();
    m.SetPixelShader(p);
    p' := m.GetPixelShader();
    m.SetVertexShader(v);
    v' := m.GetVertexShader();
  }

  /** SetColorTint then all three getters: the new tint, and both handles as they were. */
  method SetColorTintThenGet<P, V>(m: Material<P, V>, c: Float4)
    returns (c': Float4, p': P, v': V)
    modifies m
    ensures c' == c && p' == old(m.pixelShader) && v' == old(m.vertexShader)
  {
    m.SetColorTint(c);
    c' := m.GetColorTint();
    p' := m.GetPixelShader();
    v' := m.GetVertexShader();
  }

  /** SetPixelShader then all three getters: the new handle, and the tint and vertex shader as they were. */
  method SetPixelShaderThenGet<P, V>(m: Material<P, V>, p: P)
    returns (c': Float4, p': P, v': V)
    modifies m
    ensures p' == p && c' == old(m.colorTint) && v' == old(m.vertexShader)
  {
    m.SetPixelShader(p);
    c' := m.GetColorTint();
    p' := m.GetPixelShader();
    v' := m.GetVertexShader();
  }

  /** SetVertexShader then all three getters: the new handle, and the tint and pixel shader as they were. */
  method SetVertexShaderThenGet<P, V>(m: Material<P, V>, v: V)
    returns (c': Float4, p': P, v': V)
    modifies m
    ensures v' == v && c' == old(m.colorTint) && p' == old(m.pixelShader)
  {
    m.SetVertexShader(v);
    c' := m.GetColorTint();
    p' := m.GetPixelShader();
    v' := m.GetVertexShader();
  }
}
