/** Properties of the triangle pipeline: the viewport map, the bounding box,
    perspective-correct interpolation, and what a draw does to one pixel. */
module PipelineLemmas {
  import opened Linear
  import opened Pipeline

  // ---------------------------------------------------------------------------
  // Viewport and bounding box

  /** NDC in [-1, 1] lands on columns [vp.x, vp.x + vp.w - 1] and on rows
      [vp.y + 1, vp.y + vp.h]. */
  lemma ViewportRange(vp: Viewport, nx: real, ny: real)
    requires -1.0 <= nx <= 1.0 && -1.0 <= ny <= 1.0
    ensures vp.w >= 1 ==> vp.x as real <= ViewportX(vp, nx) <= (vp.x + vp.w - 1) as real
    ensures vp.h >= 1 ==> (vp.y + 1) as real <= ViewportY(vp, ny) <= (vp.y + vp.h) as real
  {
    if vp.w >= 1 {
      var s, span := (nx + 1.0) * 0.5, vp.w as real - 1.0;
      UnitScale(s, span);
      assert ViewportX(vp, nx) == s * span + vp.x as real;
    }
    if vp.h >= 1 {
      var s, span := (ny + 1.0) * 0.5, vp.h as real - 1.0;
      UnitScale(s, span);
      assert ViewportY(vp, ny) == vp.h as real - s * span + vp.y as real;
    }
  }

  lemma UnitScale(s: real, span: real)
    requires 0.0 <= s <= 1.0 && 0.0 <= span
    ensures 0.0 <= s * span <= span
  {
    ScaleMonotone(span, 0.0, s);
    ScaleMonotone(span, s, 1.0);
  }

  /** The fill rule: every pixel of the canvas whose centre lies in the
      triangle's real bounding box is visited. */
  lemma VisitedCoversBox(t: Triangle, width: nat, height: nat, x: nat, y: nat)
    requires width <= U32_MAX && height <= U32_MAX
    requires x < width && y < height
    requires MinX(t) <= x as real <= MaxX(t) && MinY(t) <= y as real <= MaxY(t)
    ensures Visited(t, width, height, x, y)
  {
    var b := Aabb(t, width, height);
    assert Ceil(MinX(t)) <= x && Ceil(MinY(t)) <= y;
    assert x <= MaxX(t).Floor && y <= MaxY(t).Floor;
    assert b.xLo <= x <= b.xHi;
    assert b.yLo <= y <= b.yHi;
  }

  /** The loop bounds as written, on a canvas with no column and no row: a
      triangle reaching left of and above the origin still yields the range
      `0..=0` on both axes, so the walk would touch pixel (0, 0). */
  lemma AabbOnEmptyCanvasReachesOrigin(t: Triangle)
    requires MinX(t) <= 0.0 && MinY(t) <= 0.0
    ensures Aabb(t, 0, 0) == Box(0, 0, 0, 0)
  {
    assert Ceil(MinX(t)) <= 0 && Ceil(MinY(t)) <= 0;
  }

  // ---------------------------------------------------------------------------
  // Interpolation

  /** With the depth reconstructed from the same weights, a channel whose three
      corner values agree interpolates to that value, whatever the depths. */
  lemma ConstantChannel(t: Triangle, bc: Barycentric, a: real)
    requires ValidDepths(t) && InvDepth(t, bc) != 0.0
    ensures Corrected(a, a, a, t, bc, 1.0 / InvDepth(t, bc)) == a
  {
    var p, q, r, z0, z1, z2 := bc.alpha, bc.beta, bc.gamma, t.v0.position.z, t.v1.position.z, t.v2.position.z;
    var z := 1.0 / InvDepth(t, bc);
    assert z == 1.0 / (p / z0 + q / z1 + r / z2);
    assert Corrected(a, a, a, t, bc, z) == (a * p / z0 + a * q / z1 + a * r / z2) * z;
    ConstantChannelOverReals(a, p, q, r, z0, z1, z2);
  }

  lemma ConstantChannelOverReals(a: real, p: real, q: real, r: real, z0: real, z1: real, z2: real)
    requires z0 != 0.0 && z1 != 0.0 && z2 != 0.0 && p / z0 + q / z1 + r / z2 != 0.0
    ensures (a * p / z0 + a * q / z1 + a * r / z2) * (1.0 / (p / z0 + q / z1 + r / z2)) == a
  {
    FactorWeight(a, p, q, r, z0, z1, z2);
    CancelInverse(a, p / z0 + q / z1 + r / z2);
  }

  lemma FactorWeight(a: real, p: real, q: real, r: real, z0: real, z1: real, z2: real)
    requires z0 != 0.0 && z1 != 0.0 && z2 != 0.0
    ensures a * p / z0 + a * q / z1 + a * r / z2 == a * (p / z0 + q / z1 + r / z2)
  {
    assert a * p / z0 == a * (p / z0);
    assert a * q / z1 == a * (q / z1);
    assert a * r / z2 == a * (r / z2);
  }

  lemma CancelInverse(a: real, inv: real)
    requires inv != 0.0
    ensures (a * inv) * (1.0 / inv) == a
  {
    assert inv * (1.0 / inv) == 1.0;
    assert (a * inv) * (1.0 / inv) == a * (inv * (1.0 / inv));
  }

  /** The constant-attribute law, slot by slot, for all four attribute arrays. */
  lemma ConstantAttributeLaw(t: Triangle, bc: Barycentric, i: nat)
    requires ValidDepths(t) && InvDepth(t, bc) != 0.0 && i < SLOTS
    ensures var a0, a1, a2 := t.v0.attributes, t.v1.attributes, t.v2.attributes;
            var r := CorrectedAttributes(1.0 / InvDepth(t, bc), t, bc);
            && (a0.float[i] == a1.float[i] == a2.float[i] ==> r.float[i] == a0.float[i])
            && (a0.vec2[i] == a1.vec2[i] == a2.vec2[i] ==> r.vec2[i] == a0.vec2[i])
            && (a0.vec3[i] == a1.vec3[i] == a2.vec3[i] ==> r.vec3[i] == a0.vec3[i])
            && (a0.vec4[i] == a1.vec4[i] == a2.vec4[i] ==> r.vec4[i] == a0.vec4[i])
  {
    var a0 := t.v0.attributes;
    ConstantChannel(t, bc, a0.float[i]);
    var p, q, r := a0.vec2[i], a0.vec3[i], a0.vec4[i];
    ConstantChannel(t, bc, p.x);
    ConstantChannel(t, bc, p.y);
    ConstantChannel(t, bc, q.x);
    ConstantChannel(t, bc, q.y);
    ConstantChannel(t, bc, q.z);
    ConstantChannel(t, bc, r.x);
    ConstantChannel(t, bc, r.y);
    ConstantChannel(t, bc, r.z);
    ConstantChannel(t, bc, r.w);
  }

  /** Weights summing to 1 over three equal depths reconstruct that depth:
      `1 / inv_z` is the weighted harmonic mean of the corner depths. */
  lemma HarmonicMeanOfEqualDepths(t: Triangle, bc: Barycentric, c: real)
    requires c != 0.0 && t.v0.position.z == c && t.v1.position.z == c && t.v2.position.z == c
    requires bc.alpha + bc.beta + bc.gamma == 1.0
    ensures ValidDepths(t) && InvDepth(t, bc) == 1.0 / c
    ensures 1.0 / InvDepth(t, bc) == c
  {
    assert bc.alpha / c + bc.beta / c + bc.gamma / c == (bc.alpha + bc.beta + bc.gamma) / c;
  }

  lemma ReciprocalAntitone(a: real, b: real)
    requires 0.0 < a <= b
    ensures 1.0 / b <= 1.0 / a
  {
    assert (1.0 / b) * a <= (1.0 / b) * b;
    assert (1.0 / b) * a <= 1.0;
    assert 1.0 / b <= 1.0 / a by {
      assert (1.0 / b) * a * (1.0 / a) <= 1.0 * (1.0 / a);
    }
  }

  lemma ScaleMonotone(c: real, a: real, b: real)
    requires 0.0 <= c && a <= b
    ensures c * a <= c * b
  {
    assert c * b - c * a == c * (b - a);
  }

  lemma DoubleReciprocal(a: real)
    requires a != 0.0
    ensures 1.0 / (1.0 / a) == a
  {
  }

  /** `inv_z` of convex weights over depths in [lo, hi] lies in [1/hi, 1/lo]. */
  lemma InvDepthBetween(t: Triangle, bc: Barycentric, lo: real, hi: real)
    requires 0.0 < lo
    requires lo <= t.v0.position.z <= hi && lo <= t.v1.position.z <= hi && lo <= t.v2.position.z <= hi
    requires bc.alpha >= 0.0 && bc.beta >= 0.0 && bc.gamma >= 0.0
    requires bc.alpha + bc.beta + bc.gamma == 1.0
    ensures ValidDepths(t) && 1.0 / hi <= InvDepth(t, bc) <= 1.0 / lo
  {
    WeightedInverseBetween(bc.alpha, bc.beta, bc.gamma, t.v0.position.z, t.v1.position.z, t.v2.position.z, lo, hi);
  }

  lemma WeightedInverseBetween(a: real, b: real, c: real, z0: real, z1: real, z2: real, lo: real, hi: real)
    requires 0.0 < lo <= z0 <= hi && lo <= z1 <= hi && lo <= z2 <= hi
    requires a >= 0.0 && b >= 0.0 && c >= 0.0 && a + b + c == 1.0
    ensures 1.0 / hi <= a / z0 + b / z1 + c / z2 <= 1.0 / lo
  {
    var r0, r1, r2 := 1.0 / z0, 1.0 / z1, 1.0 / z2;
    ReciprocalBetween(z0, lo, hi);
    ReciprocalBetween(z1, lo, hi);
    ReciprocalBetween(z2, lo, hi);
    ConvexBetween(a, b, c, r0, r1, r2, 1.0 / hi, 1.0 / lo);
    DivAsMul(a, z0);
    DivAsMul(b, z1);
    DivAsMul(c, z2);
    assert a / z0 + b / z1 + c / z2 == a * r0 + b * r1 + c * r2;
  }

  lemma ReciprocalBetween(z: real, lo: real, hi: real)
    requires 0.0 < lo <= z <= hi
    ensures 1.0 / hi <= 1.0 / z <= 1.0 / lo
  {
    ReciprocalAntitone(lo, z);
    ReciprocalAntitone(z, hi);
  }

  lemma DivAsMul(a: real, z: real)
    requires z != 0.0
    ensures a / z == a * (1.0 / z)
  {
  }

  /** A convex combination of three values in [m, n] stays in [m, n]: its
      distance from either end is a combination of same-signed distances. */
  lemma ConvexBetween(a: real, b: real, c: real, r0: real, r1: real, r2: real, m: real, n: real)
    requires a >= 0.0 && b >= 0.0 && c >= 0.0 && a + b + c == 1.0
    requires m <= r0 <= n && m <= r1 <= n && m <= r2 <= n
    ensures m <= a * r0 + b * r1 + c * r2 <= n
  {
    ProductSign(a, r0 - m);
    ProductSign(b, r1 - m);
    ProductSign(c, r2 - m);
    ProductSign(a, r0 - n);
    ProductSign(b, r1 - n);
    ProductSign(c, r2 - n);
    ConvexOffset(a, b, c, r0, r1, r2, m);
    ConvexOffset(a, b, c, r0, r1, r2, n);
  }

  lemma ProductSign(a: real, d: real)
    requires a >= 0.0
    ensures d >= 0.0 ==> a * d >= 0.0
    ensures d <= 0.0 ==> a * d <= 0.0
  {
  }

  lemma ConvexOffset(a: real, b: real, c: real, r0: real, r1: real, r2: real, m: real)
    requires a + b + c == 1.0
    ensures a * (r0 - m) + b * (r1 - m) + c * (r2 - m) == a * r0 + b * r1 + c * r2 - m
  {
    assert a * (r0 - m) == a * r0 - a * m;
    assert b * (r1 - m) == b * r1 - b * m;
    assert c * (r2 - m) == c * r2 - c * m;
    assert a * m + b * m + c * m == (a + b + c) * m;
  }

  /** Convex weights over three positive depths reconstruct a depth between
      the smallest and the largest of them. */
  lemma DepthBetweenPositiveCorners(t: Triangle, bc: Barycentric, lo: real, hi: real)
    requires 0.0 < lo
    requires lo <= t.v0.position.z <= hi && lo <= t.v1.position.z <= hi && lo <= t.v2.position.z <= hi
    requires bc.alpha >= 0.0 && bc.beta >= 0.0 && bc.gamma >= 0.0
    requires bc.alpha + bc.beta + bc.gamma == 1.0
    ensures ValidDepths(t) && InvDepth(t, bc) > 0.0
    ensures lo <= 1.0 / InvDepth(t, bc) <= hi
  {
    InvDepthBetween(t, bc, lo, hi);
    var inv := InvDepth(t, bc);
    assert 0.0 < 1.0 / hi;
    ReciprocalAntitone(1.0 / hi, inv);
    ReciprocalAntitone(inv, 1.0 / lo);
    DoubleReciprocal(hi);
    DoubleReciprocal(lo);
  }

  lemma NegatedDepthsNegateInverse(t: Triangle, n: Triangle, bc: Barycentric)
    requires ValidDepths(t)
    requires n.v0.position.z == -t.v0.position.z && n.v1.position.z == -t.v1.position.z
    requires n.v2.position.z == -t.v2.position.z
    ensures ValidDepths(n) && InvDepth(n, bc) == -InvDepth(t, bc)
  {
    assert bc.alpha / (-t.v0.position.z) == -(bc.alpha / t.v0.position.z);
    assert bc.beta / (-t.v1.position.z) == -(bc.beta / t.v1.position.z);
    assert bc.gamma / (-t.v2.position.z) == -(bc.gamma / t.v2.position.z);
  }

  /** The same for negative depths, the sign the pipeline stores for points in
      front of a perspective camera (`z = -w`). */
  lemma DepthBetweenNegativeCorners(t: Triangle, bc: Barycentric, lo: real, hi: real)
    requires hi < 0.0
    requires lo <= t.v0.position.z <= hi && lo <= t.v1.position.z <= hi && lo <= t.v2.position.z <= hi
    requires bc.alpha >= 0.0 && bc.beta >= 0.0 && bc.gamma >= 0.0
    requires bc.alpha + bc.beta + bc.gamma == 1.0
    ensures ValidDepths(t) && InvDepth(t, bc) < 0.0
    ensures lo <= 1.0 / InvDepth(t, bc) <= hi
  {
    var n := Triangle(t.v0.(position := t.v0.position.(z := -t.v0.position.z)),
                      t.v1.(position := t.v1.position.(z := -t.v1.position.z)),
                      t.v2.(position := t.v2.position.(z := -t.v2.position.z)));
    DepthBetweenPositiveCorners(n, bc, -hi, -lo);
    NegatedDepthsNegateInverse(t, n, bc);
    var inv := InvDepth(t, bc);
    assert 1.0 / (-inv) == -(1.0 / inv);
  }

  /** At a corner (unit weight on that corner, zero on the others) the depth
      and every attribute are exactly those of that corner. */
  lemma CornerIsExact(t: Triangle)
    requires ValidDepths(t)
    ensures var bc := Barycentric(1.0, 0.0, 0.0, true);
            InvDepth(t, bc) != 0.0 && 1.0 / InvDepth(t, bc) == t.v0.position.z &&
            CorrectedAttributes(1.0 / InvDepth(t, bc), t, bc) == t.v0.attributes
    ensures var bc := Barycentric(0.0, 1.0, 0.0, true);
            InvDepth(t, bc) != 0.0 && 1.0 / InvDepth(t, bc) == t.v1.position.z &&
            CorrectedAttributes(1.0 / InvDepth(t, bc), t, bc) == t.v1.attributes
    ensures var bc := Barycentric(0.0, 0.0, 1.0, true);
            InvDepth(t, bc) != 0.0 && 1.0 / InvDepth(t, bc) == t.v2.position.z &&
            CorrectedAttributes(1.0 / InvDepth(t, bc), t, bc) == t.v2.attributes
  {
    CornerZero(t);
    CornerOne(t);
    CornerTwo(t);
  }

  lemma CornerZero(t: Triangle)
    requires ValidDepths(t)
    ensures var bc := Barycentric(1.0, 0.0, 0.0, true);
            InvDepth(t, bc) != 0.0 && 1.0 / InvDepth(t, bc) == t.v0.position.z &&
            CorrectedAttributes(1.0 / InvDepth(t, bc), t, bc) == t.v0.attributes
  {
    var bc := Barycentric(1.0, 0.0, 0.0, true);
    var z0 := t.v0.position.z;
    assert InvDepth(t, bc) == 1.0 / z0;
    assert 1.0 / (1.0 / z0) == z0;
    forall a: real, b: real, c: real ensures Corrected(a, b, c, t, bc, z0) == a {
      assert a * 1.0 / z0 == a / z0;
      assert a / z0 * z0 == a;
    }
    var r := CorrectedAttributes(z0, t, bc);
    var a0 := t.v0.attributes;
    assert r.float == a0.float;
    assert r.vec2 == a0.vec2;
    assert r.vec3 == a0.vec3;
    assert r.vec4 == a0.vec4;
  }

  lemma CornerOne(t: Triangle)
    requires ValidDepths(t)
    ensures var bc := Barycentric(0.0, 1.0, 0.0, true);
            InvDepth(t, bc) != 0.0 && 1.0 / InvDepth(t, bc) == t.v1.position.z &&
            CorrectedAttributes(1.0 / InvDepth(t, bc), t, bc) == t.v1.attributes
  {
    var bc := Barycentric(0.0, 1.0, 0.0, true);
    var z1 := t.v1.position.z;
    assert InvDepth(t, bc) == 1.0 / z1;
    assert 1.0 / (1.0 / z1) == z1;
    forall a: real, b: real, c: real ensures Corrected(a, b, c, t, bc, z1) == b {
      assert b * 1.0 / z1 == b / z1;
      assert b / z1 * z1 == b;
    }
    var r := CorrectedAttributes(z1, t, bc);
    var a1 := t.v1.attributes;
    assert r.float == a1.float;
    assert r.vec2 == a1.vec2;
    assert r.vec3 == a1.vec3;
    assert r.vec4 == a1.vec4;
  }

  lemma CornerTwo(t: Triangle)
    requires ValidDepths(t)
    ensures var bc := Barycentric(0.0, 0.0, 1.0, true);
            InvDepth(t, bc) != 0.0 && 1.0 / InvDepth(t, bc) == t.v2.position.z &&
            CorrectedAttributes(1.0 / InvDepth(t, bc), t, bc) == t.v2.attributes
  {
    var bc := Barycentric(0.0, 0.0, 1.0, true);
    var z2 := t.v2.position.z;
    assert InvDepth(t, bc) == 1.0 / z2;
    assert 1.0 / (1.0 / z2) == z2;
    forall a: real, b: real, c: real ensures Corrected(a, b, c, t, bc, z2) == c {
      assert c * 1.0 / z2 == c / z2;
      assert c / z2 * z2 == c;
    }
    var r := CorrectedAttributes(z2, t, bc);
    var a2 := t.v2.attributes;
    assert r.float == a2.float;
    assert r.vec2 == a2.vec2;
    assert r.vec3 == a2.vec3;
    assert r.vec4 == a2.vec4;
  }

  // ---------------------------------------------------------------------------
  // Stages

  lemma ModelViewIdentity(v: Vertex)
    ensures ModelView(Identity, Identity, v) == v
  {
    IdentityMul(Identity);
    IdentityMulVec(v.position);
  }

  lemma ProjectIdentity(v: Vertex)
    ensures Project(Identity, v) == v
  {
    IdentityMulVec(v.position);
  }

  lemma IdentityClip(env: Env, v: Vertex)
    requires env.model == Identity && env.camera.view == Identity && env.camera.projection == Identity
    requires ShadeVertex(env, v) == v
    ensures Clip(env, v) == v
  {
    ModelViewIdentity(v);
    assert Eye(env, v) == v;
    ProjectIdentity(v);
  }

  lemma ToScreenUnitW(vp: Viewport, v: Vertex)
    requires v.position.w == 1.0
    ensures ToScreen(vp, v) ==
      v.(position := Vec4(ViewportX(vp, v.position.x), ViewportY(vp, v.position.y), -1.0, 1.0))
  {
    assert v.position.x / 1.0 == v.position.x && v.position.y / 1.0 == v.position.y;
  }

  /** With identity model, view and projection matrices, a vertex shader that
      keeps the corners, and w = 1 at every corner, each screen position is the
      viewport map applied directly to the input (x, y), and the stored depth
      is -1. */
  lemma IdentityTransformsMapByViewport(env: Env, t: Triangle)
    requires env.model == Identity && env.camera.view == Identity && env.camera.projection == Identity
    requires ShadeVertex(env, t.v0) == t.v0 && ShadeVertex(env, t.v1) == t.v1 && ShadeVertex(env, t.v2) == t.v2
    requires t.v0.position.w == 1.0 && t.v1.position.w == 1.0 && t.v2.position.w == 1.0
    requires !Culls(env, t)
    ensures Projectable(env, t)
    ensures var vp := env.viewport;
            Prepare(env, t) == Kept(Triangle(
              t.v0.(position := Vec4(ViewportX(vp, t.v0.position.x), ViewportY(vp, t.v0.position.y), -1.0, 1.0)),
              t.v1.(position := Vec4(ViewportX(vp, t.v1.position.x), ViewportY(vp, t.v1.position.y), -1.0, 1.0)),
              t.v2.(position := Vec4(ViewportX(vp, t.v2.position.x), ViewportY(vp, t.v2.position.y), -1.0, 1.0))))
  {
    IdentityClip(env, t.v0);
    IdentityClip(env, t.v1);
    IdentityClip(env, t.v2);
    PrepareFixedClip(env, t);
  }

  /** A kept triangle whose corners are already in clip space with w = 1. */
  lemma PrepareFixedClip(env: Env, t: Triangle)
    requires Clip(env, t.v0) == t.v0 && Clip(env, t.v1) == t.v1 && Clip(env, t.v2) == t.v2
    requires t.v0.position.w == 1.0 && t.v1.position.w == 1.0 && t.v2.position.w == 1.0
    requires !Culls(env, t)
    ensures Projectable(env, t)
    ensures var vp := env.viewport;
            Prepare(env, t) == Kept(Triangle(
              t.v0.(position := Vec4(ViewportX(vp, t.v0.position.x), ViewportY(vp, t.v0.position.y), -1.0, 1.0)),
              t.v1.(position := Vec4(ViewportX(vp, t.v1.position.x), ViewportY(vp, t.v1.position.y), -1.0, 1.0)),
              t.v2.(position := Vec4(ViewportX(vp, t.v2.position.x), ViewportY(vp, t.v2.position.y), -1.0, 1.0))))
  {
    var vp := env.viewport;
    ToScreenUnitW(vp, t.v0);
    ToScreenUnitW(vp, t.v1);
    ToScreenUnitW(vp, t.v2);
    assert Prepare(env, t) == Kept(Triangle(ToScreen(vp, t.v0), ToScreen(vp, t.v1), ToScreen(vp, t.v2)));
  }

  /** Only complete groups of three form triangles: trailing vertices change nothing. */
  lemma TrailingVerticesIgnored(env: Env, vertices: seq<Vertex>)
    requires Drawable(env, vertices)
    ensures var whole := vertices[..|vertices| / 3 * 3];
            Drawable(env, whole) && Triangles(env, whole) == Triangles(env, vertices)
  {
    var whole := vertices[..|vertices| / 3 * 3];
    assert |whole| / 3 == |vertices| / 3;
    forall i: nat | i < |whole| / 3 ensures TriangleAt(whole, i) == TriangleAt(vertices, i) {
      assert 2 + i * 3 < |whole|;
    }
  }

  // ---------------------------------------------------------------------------
  // A draw, seen from one pixel

  /** Drawing one more primitive applies it to the pixel the shorter draw left. */
  lemma AfterDrawStep(env: Env, prims: seq<Primitive>, i: nat, x: nat, y: nat, p: Pixel)
    requires KeptValid(prims) && i < |prims|
    requires env.width <= U32_MAX && env.height <= U32_MAX
    ensures KeptValid(prims[..i]) && KeptValid(prims[..i + 1])
    ensures AfterDraw(env, prims[..i + 1], x, y, p)
         == AfterPrimitive(env, prims[i], x, y, AfterDraw(env, prims[..i], x, y, p))
  {
    assert prims[..i + 1][..i] == prims[..i];
  }

  /** Whether a primitive can change the pixel: in fill mode when its walk
      visits it, in wireframe mode when one of its edges changes it. */
  ghost predicate Reaches(env: Env, prim: Primitive, x: nat, y: nat)
    requires prim.Kept? ==> ValidDepths(prim.tri)
    requires env.width <= U32_MAX && env.height <= U32_MAX
  {
    prim.Kept? &&
    if env.wireframe then
      exists k, q | 0 <= k < 3 :: LineAt(env, WireframeEdges(prim.tri)[k], x, y, q) != q
    else Visited(prim.tri, env.width, env.height, x, y)
  }

  /** A pixel that no primitive reaches (culled, outside every clamped box, or
      off every wireframe edge) is left exactly as it was. */
  lemma {:induction false} UnreachedPixelUnchanged(env: Env, prims: seq<Primitive>, x: nat, y: nat, p: Pixel)
    requires KeptValid(prims) && env.width <= U32_MAX && env.height <= U32_MAX
    requires forall k | 0 <= k < |prims| :: !Reaches(env, prims[k], x, y)
    ensures AfterDraw(env, prims, x, y, p) == p
  {
    if prims != [] {
      var before := prims[..|prims| - 1];
      assert KeptValid(before) by {
        forall k | 0 <= k < |before| ensures before[k].Kept? ==> ValidDepths(before[k].tri) {
          assert before[k] == prims[k];
        }
      }
      assert forall k | 0 <= k < |before| :: before[k] == prims[k];
      UnreachedPixelUnchanged(env, before, x, y, p);
      assert !Reaches(env, prims[|prims| - 1], x, y);
    }
  }

  /** A draw of fewer than three vertices changes no pixel. */
  lemma FewerThanThreeVerticesDrawNothing(env: Env, vertices: seq<Vertex>, x: nat, y: nat, p: Pixel)
    requires |vertices| < 3 && env.width <= U32_MAX && env.height <= U32_MAX
    ensures Drawable(env, vertices) && AfterDraw(env, Triangles(env, vertices), x, y, p) == p
  {
    assert Triangles(env, vertices) == [];
  }

  /** In wireframe mode the fill path never runs: the barycentric helper and the
      near value have no effect on any pixel. */
  lemma {:induction false} WireframeDrawFillsNothing(env: Env, prims: seq<Primitive>, x: nat, y: nat, p: Pixel,
                                                     barycentric: BarycentricFn, near: real)
    requires KeptValid(prims) && env.width <= U32_MAX && env.height <= U32_MAX
    requires env.wireframe
    ensures AfterDraw(env, prims, x, y, p)
         == AfterDraw(env.(barycentric := barycentric, camera := env.camera.(near := near)), prims, x, y, p)
  {
    if prims != [] {
      var before := prims[..|prims| - 1];
      assert KeptValid(before) by {
        forall k | 0 <= k < |before| ensures before[k].Kept? ==> ValidDepths(before[k].tri) {
          assert before[k] == prims[k];
        }
      }
      WireframeDrawFillsNothing(env, before, x, y, p, barycentric, near);
      var last := prims[|prims| - 1];
      if last.Kept? {
        EdgesDependOnLinesOnly(env, env.(barycentric := barycentric, camera := env.camera.(near := near)),
                               WireframeEdges(last.tri), x, y, AfterDraw(env, before, x, y, p));
      }
    }
  }

  lemma EdgesDependOnLinesOnly(env: Env, other: Env, edges: seq<(Vertex, Vertex)>, x: nat, y: nat, p: Pixel)
    requires other.line == env.line && other.shader == env.shader
    requires other.uniforms == env.uniforms && other.textures == env.textures
    ensures AfterEdges(env, edges, x, y, p) == AfterEdges(other, edges, x, y, p)
  {
  }

  /** In fill mode the line rasteriser is never called: it has no effect on any pixel. */
  lemma {:induction false} FillDrawDrawsNoLines(env: Env, prims: seq<Primitive>, x: nat, y: nat, p: Pixel,
                                                line: LineFn)
    requires KeptValid(prims) && env.width <= U32_MAX && env.height <= U32_MAX
    requires !env.wireframe
    ensures AfterDraw(env, prims, x, y, p) == AfterDraw(env.(line := line), prims, x, y, p)
  {
    if prims != [] {
      var before := prims[..|prims| - 1];
      assert KeptValid(before) by {
        forall k | 0 <= k < |before| ensures before[k].Kept? ==> ValidDepths(before[k].tri) {
          assert before[k] == prims[k];
        }
      }
      FillDrawDrawsNoLines(env, before, x, y, p, line);
    }
  }

  /** Primitive k of the draw wrote the pixel `r`: it reached the pixel, passed
      all three guards against the depth stored at that moment, wrote its
      fragment, and no later primitive changed the pixel again. */
  ghost predicate WrittenBy(env: Env, prims: seq<Primitive>, k: nat, x: nat, y: nat, p: Pixel, r: Pixel)
    requires KeptValid(prims) && env.width <= U32_MAX && env.height <= U32_MAX
  {
    && k < |prims|
    && KeptValid(prims[..k]) && KeptValid(prims[..k + 1])
    && Reaches(env, prims[k], x, y)
    && Passes(env, prims[k].tri, x, y, AfterDraw(env, prims[..k], x, y, p).depth)
    && r == Pixel(FragColor(env, prims[k].tri, x, y), FragDepth(env, prims[k].tri, x, y))
    && AfterDraw(env, prims[..k + 1], x, y, p) == r
  }

  /** In fill mode the final pixel is either the original one or exactly the
      fragment of the last primitive that changed it. Never a blend. */
  lemma {:induction false} LastPassingFragmentWins(env: Env, prims: seq<Primitive>, x: nat, y: nat, p: Pixel)
    requires KeptValid(prims) && env.width <= U32_MAX && env.height <= U32_MAX
    requires !env.wireframe
    ensures var r := AfterDraw(env, prims, x, y, p);
            r == p || exists k: nat :: WrittenBy(env, prims, k, x, y, p, r)
  {
    if prims != [] {
      var n := |prims| - 1;
      var before := prims[..n];
      assert KeptValid(before) by {
        forall k | 0 <= k < |before| ensures before[k].Kept? ==> ValidDepths(before[k].tri) {
          assert before[k] == prims[k];
        }
      }
      LastPassingFragmentWins(env, before, x, y, p);
      var mid := AfterDraw(env, before, x, y, p);
      var r := AfterDraw(env, prims, x, y, p);
      assert r == AfterPrimitive(env, prims[n], x, y, mid);
      if r != mid {
        FragmentChangedMeansPassed(env, prims[n], x, y, mid);
        assert prims[..n + 1] == prims;
        assert WrittenBy(env, prims, n, x, y, p, r);
      } else if mid != p {
        var k: nat :| WrittenBy(env, before, k, x, y, p, mid);
        WrittenByLongerDraw(env, prims, n, k, x, y, p, mid);
      }
    }
  }

  lemma WrittenByLongerDraw(env: Env, prims: seq<Primitive>, n: nat, k: nat, x: nat, y: nat, p: Pixel, r: Pixel)
    requires KeptValid(prims) && env.width <= U32_MAX && env.height <= U32_MAX
    requires n <= |prims| && KeptValid(prims[..n])
    requires WrittenBy(env, prims[..n], k, x, y, p, r)
    ensures WrittenBy(env, prims, k, x, y, p, r)
  {
    assert prims[..n][k] == prims[k];
    assert prims[..n][..k] == prims[..k];
    assert prims[..n][..k + 1] == prims[..k + 1];
  }

  /** In fill mode a primitive that changes the pixel reached it, passed the
      three guards, and wrote its fragment. */
  lemma FragmentChangedMeansPassed(env: Env, prim: Primitive, x: nat, y: nat, p: Pixel)
    requires prim.Kept? ==> ValidDepths(prim.tri)
    requires env.width <= U32_MAX && env.height <= U32_MAX
    requires !env.wireframe && AfterPrimitive(env, prim, x, y, p) != p
    ensures Reaches(env, prim, x, y) && Passes(env, prim.tri, x, y, p.depth)
    ensures AfterPrimitive(env, prim, x, y, p)
         == Pixel(FragColor(env, prim.tri, x, y), FragDepth(env, prim.tri, x, y))
  {
  }

  /** In fill mode, drawing the same primitive a second time changes nothing
      more: a fragment that was written passes again with the same colour and
      depth, and one that was rejected is rejected again. */
  lemma PrimitiveIdempotent(env: Env, prim: Primitive, x: nat, y: nat, p: Pixel)
    requires prim.Kept? ==> ValidDepths(prim.tri)
    requires env.width <= U32_MAX && env.height <= U32_MAX
    requires !env.wireframe
    ensures var once := AfterPrimitive(env, prim, x, y, p);
            AfterPrimitive(env, prim, x, y, once) == once
  {
  }
}
