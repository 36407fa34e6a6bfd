/**
 Rotation-free model matrices.  The tram's matrix is built from translations
 and one uniform scale, so it is a map q -> scale * q + offset.  Composition
 follows the `glm` convention: `translate(m, v)` and `scale(m, k)` multiply
 `m` on the right, so the new operation is applied to a point first.
 */
module Transform {
  import opened Vectors

  /** The map q -> scale * q + offset. */
  datatype Affine = Affine(scale: real, offset: Vec3)

  const Identity: Affine := Affine(1.0, Zero)

  function Apply(m: Affine, q: Vec3): Vec3 {
    Add(Scale(m.scale, q), m.offset)
  }

  /** The product m * n: apply `n`, then `m`. */
  function Compose(m: Affine, n: Affine): (r: Affine)
    ensures forall q :: Apply(r, q) == Apply(m, Apply(n, q))
  {
    var r := Affine(m.scale * n.scale, Add(Scale(m.scale, n.offset), m.offset));
    assert forall q :: Apply(r, q) == Apply(m, Apply(n, q)) by {
      forall q
        ensures Apply(r, q) == Apply(m, Apply(n, q))
      {
        DistributeScale(m.scale, n.scale, q, n.offset);
      }
    }
    r
  }

  lemma DistributeScale(a: real, b: real, q: Vec3, o: Vec3)
    ensures Scale(a * b, q) == Scale(a, Scale(b, q))
    ensures Add(Scale(a, Scale(b, q)), Scale(a, o)) == Scale(a, Add(Scale(b, q), o))
  {
    assert (a * b) * q.x == a * (b * q.x);
    assert (a * b) * q.y == a * (b * q.y);
    assert (a * b) * q.z == a * (b * q.z);
  }

  /** `glm::translate(m, v)`. */
  function Translate(m: Affine, v: Vec3): (r: Affine)
    ensures forall q :: Apply(r, q) == Apply(m, Add(q, v))
  {
    Compose(m, Affine(1.0, v))
  }

  /** `glm::scale(m, (k, k, k))`. */
  function ScaleBy(m: Affine, k: real): (r: Affine)
    ensures forall q :: Apply(r, q) == Apply(m, Scale(k, q))
  {
    Compose(m, Affine(k, Zero))
  }

  /**
   The tram's model matrix for tram position `p`: identity, translated down
   by 0.5, scaled by 0.01, translated by `p`.
   */
  function TramModel(p: Vec3): Affine {
    Translate(ScaleBy(Translate(Identity, Vec3(0.0, -0.5, 0.0)), 0.01), p)
  }

  /**
   The tram's matrix in closed form: scale 0.01 and offset (0, -0.5, 0) +
   0.01 * p, so a point q of the tram model lands at 0.01 * (q + p) + (0, -0.5, 0).
   */
  lemma TramModelClosedForm(p: Vec3)
    ensures TramModel(p) == Affine(0.01, Add(Vec3(0.0, -0.5, 0.0), Scale(0.01, p)))
    ensures forall q :: Apply(TramModel(p), q) == Add(Scale(0.01, Add(q, p)), Vec3(0.0, -0.5, 0.0))
  {
    var down := Vec3(0.0, -0.5, 0.0);
    var lowered := Translate(Identity, down);
    assert lowered == Affine(1.0, down);
    var scaled := ScaleBy(lowered, 0.01);
    assert scaled == Affine(0.01, down);
    assert Translate(scaled, p) == Affine(0.01, Add(Scale(0.01, p), down));
  }
}
