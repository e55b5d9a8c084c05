/** One propagation pass: every photon of the current wavefront lights every sample point
    of every plate that faces it and that no other plate hides from it; the receiver
    of the sample keeps what arrives and its emitter stores the re-emittable share. */
module Transport {
  import opened Vectors
  import opened Scene

  // ---------------------------------------------------------------------------
  // Occlusion
  // ---------------------------------------------------------------------------

  /** The segment `p0`-`p1` crosses triangle `(c0, c1, c2)` or triangle `(c2, c3, c0)`
      of plate `q`. */
  predicate Hits(q: Plate, p0: Vec3, p1: Vec3)
  {
    || SegmentIntersectsTriangle(p0, p1, q.positions.c0, q.positions.c1, q.positions.c2)
    || SegmentIntersectsTriangle(p0, p1, q.positions.c2, q.positions.c3, q.positions.c0)
  }

  /** Some plate other than plate `k` lies across the segment `p0`-`p1`. */
  predicate Occluded(plates: seq<Plate>, k: nat, p0: Vec3, p1: Vec3)
  {
    exists j :: 0 <= j < |plates| && j != k && Hits(plates[j], p0, p1)
  }

  /** The occlusion scan: plates in order, skipping plate `k` itself, until one is hit. */
  method IsOccluded(plates: seq<Plate>, k: nat, p0: Vec3, p1: Vec3) returns (intersect: bool)
    ensures intersect == Occluded(plates, k, p0, p1)
  {
    intersect := false;
    var j := 0;
    while !intersect && j < |plates|
      invariant 0 <= j <= |plates|
      invariant !intersect ==> forall i :: 0 <= i < j && i != k ==> !Hits(plates[i], p0, p1)
      invariant intersect ==> Occluded(plates, k, p0, p1)
    {
      if j != k {
        var q := plates[j].positions;
        intersect := SegmentIntersectsTriangle(p0, p1, q.c0, q.c1, q.c2) ||
                     SegmentIntersectsTriangle(p0, p1, q.c2, q.c3, q.c0);
      }
      j := j + 1;
    }
  }

  /** A plate never hides anything from itself: whatever plate `k` is, the scan for plate
      `k` gives the same answer. */
  lemma OcclusionIgnoresSelf(plates: seq<Plate>, k: nat, q: Plate, p0: Vec3, p1: Vec3)
    requires k < |plates|
    ensures Occluded(plates[k := q], k, p0, p1) <==> Occluded(plates, k, p0, p1)
  {
    if Occluded(plates, k, p0, p1) {
      var j :| 0 <= j < |plates| && j != k && Hits(plates[j], p0, p1);
      assert plates[k := q][j] == plates[j];
    }
    if Occluded(plates[k := q], k, p0, p1) {
      var j :| 0 <= j < |plates| && j != k && Hits(plates[k := q][j], p0, p1);
      assert plates[k := q][j] == plates[j];
    }
  }

  /** Only geometry matters: plates with the same corners hide the same segments. */
  lemma OcclusionIgnoresBuffers(plates: seq<Plate>, plates': seq<Plate>, k: nat, p0: Vec3, p1: Vec3)
    requires |plates'| == |plates|
    requires forall j :: 0 <= j < |plates| ==> plates'[j].positions == plates[j].positions
    ensures Occluded(plates', k, p0, p1) <==> Occluded(plates, k, p0, p1)
  {
    if Occluded(plates, k, p0, p1) {
      var j :| 0 <= j < |plates| && j != k && Hits(plates[j], p0, p1);
      assert Hits(plates'[j], p0, p1);
    }
    if Occluded(plates', k, p0, p1) {
      var j :| 0 <= j < |plates| && j != k && Hits(plates'[j], p0, p1);
      assert Hits(plates[j], p0, p1);
    }
  }

  // ---------------------------------------------------------------------------
  // What a sample receives
  // ---------------------------------------------------------------------------

  /** Energy a photon delivers to a sample point of a plate with the given material
      (distance decay, wavelength decay, cosine of the arrival angle). */
  type Received = (Photon, Vec3, Material) -> Vec3

  /** The photon lights the sample point `position` of plate `k`: the direction toward the
      photon is defined (a zero direction has no normalisation and fails the test),
      faces the photon's direction, and no other plate lies in between. */
  predicate Reaches(plates: seq<Plate>, k: nat, position: Vec3, photon: Photon)
  {
    var dir := Sub(photon.position, position);
    && dir != Zero
    && Facing(dir, photon.normal)
    && !Occluded(plates, k, position, photon.position)
  }

  /** What the first `m` photons contribute to sample `position` of plate `k`, each
      contribution scaled by `share`. */
  function Gain(plates: seq<Plate>, k: nat, position: Vec3, photons: seq<Photon>, m: nat,
                received: Received, share: real): Vec3
    requires k < |plates| && m <= |photons|
  {
    if m == 0 then Zero
    else
      var photon := photons[m - 1];
      var more := if Reaches(plates, k, position, photon) then Scale(received(photon, position, plates[k].material), share) else Zero;
      Add(Gain(plates, k, position, photons, m - 1, received, share), more)
  }

  /** Scaling distributes over a sum of vectors. */
  lemma ScaleAdd(a: Vec3, b: Vec3, s: real)
    ensures Scale(Add(a, b), s) == Add(Scale(a, s), Scale(b, s))
  {
    assert (a.x + b.x) * s == a.x * s + b.x * s;
    assert (a.y + b.y) * s == a.y * s + b.y * s;
    assert (a.z + b.z) * s == a.z * s + b.z * s;
  }

  /** Vector addition is associative. */
  lemma AddAssoc(a: Vec3, b: Vec3, c: Vec3)
    ensures Add(Add(a, b), c) == Add(a, Add(b, c))
  {
  }

  /** One more photon adds its contribution when it reaches the sample, nothing otherwise. */
  lemma GainStep(plates: seq<Plate>, k: nat, position: Vec3, photons: seq<Photon>, m: nat,
                 received: Received, share: real)
    requires k < |plates| && m < |photons|
    ensures Gain(plates, k, position, photons, m + 1, received, share)
         == if Reaches(plates, k, position, photons[m])
            then Add(Gain(plates, k, position, photons, m, received, share),
                     Scale(received(photons[m], position, plates[k].material), share))
            else Gain(plates, k, position, photons, m, received, share)
  {
  }

  /** The emitter keeps exactly `share` of what the receiver gains. */
  lemma {:induction false} GainShare(plates: seq<Plate>, k: nat, position: Vec3, photons: seq<Photon>, m: nat,
                                     received: Received, share: real)
    requires k < |plates| && m <= |photons|
    ensures Gain(plates, k, position, photons, m, received, share)
         == Scale(Gain(plates, k, position, photons, m, received, 1.0), share)
  {
    if m > 0 {
      GainShare(plates, k, position, photons, m - 1, received, share);
      var photon := photons[m - 1];
      var e := received(photon, position, plates[k].material);
      var whole := if Reaches(plates, k, position, photon) then Scale(e, 1.0) else Zero;
      var part := if Reaches(plates, k, position, photon) then Scale(e, share) else Zero;
      assert part == Scale(whole, share);
      ScaleAdd(Gain(plates, k, position, photons, m - 1, received, 1.0), whole, share);
    }
  }

  /** A sample no photon reaches gains nothing. */
  lemma {:induction false} DarkGain(plates: seq<Plate>, k: nat, position: Vec3, photons: seq<Photon>, m: nat,
                                    received: Received, share: real)
    requires k < |plates| && m <= |photons|
    requires forall i :: 0 <= i < m ==> !Reaches(plates, k, position, photons[i])
    ensures Gain(plates, k, position, photons, m, received, share) == Zero
  {
    if m > 0 {
      DarkGain(plates, k, position, photons, m - 1, received, share);
    }
  }

  /** A zero share stores nothing, whatever arrives. */
  lemma {:induction false} ZeroShareGain(plates: seq<Plate>, k: nat, position: Vec3, photons: seq<Photon>, m: nat,
                                         received: Received)
    requires k < |plates| && m <= |photons|
    ensures Gain(plates, k, position, photons, m, received, 0.0) == Zero
  {
    if m > 0 {
      ZeroShareGain(plates, k, position, photons, m - 1, received);
    }
  }

  // ---------------------------------------------------------------------------
  // The pass
  // ---------------------------------------------------------------------------

  /** Plate `after` is plate `k` of `plates` once the wavefront `photons` has been
      propagated to it: same surface, sample points, normals and colours; receiver `i`
      has gained everything that reaches sample `i`, emitter `i` the retransmitted share. */
  ghost predicate Illuminated(plates: seq<Plate>, k: nat, photons: seq<Photon>, received: Received, after: Plate)
    requires k < |plates|
  {
    var before := plates[k];
    && SameSurface(before, after)
    && after.colors == before.colors
    && |after.receivers| == |before.receivers|
    && |after.emitters| == |before.emitters|
    && (forall i :: 0 <= i < |before.receivers| && i < |before.emitters| ==>
          after.receivers[i]
          == Add(before.receivers[i], Gain(plates, k, before.emitters[i].position, photons, |photons|, received, 1.0)))
    && (forall i :: 0 <= i < |before.emitters| ==>
          && after.emitters[i].position == before.emitters[i].position
          && after.emitters[i].normal == before.emitters[i].normal
          && after.emitters[i].color
             == Add(before.emitters[i].color,
                    Gain(plates, k, before.emitters[i].position, photons, |photons|, received, before.material.retransmission)))
  }

  /** The buffers of plate `k` after `m` photons: samples before `i` have seen photon `m`
      too. */
  ghost predicate Progress(plates: seq<Plate>, k: nat, photons: seq<Photon>, received: Received,
                           receivers: seq<Vec3>, emitters: seq<Photon>, m: nat, i: nat)
    requires k < |plates| && m < |photons|
  {
    var before := plates[k];
    var share := before.material.retransmission;
    && |receivers| == |before.receivers| == |emitters| == |before.emitters|
    && (forall j :: 0 <= j < |emitters| ==>
          && emitters[j].position == before.emitters[j].position
          && emitters[j].normal == before.emitters[j].normal)
    && (forall j :: 0 <= j < |emitters| ==>
          var seen := if j < i then m + 1 else m;
          && receivers[j] == Add(before.receivers[j], Gain(plates, k, before.emitters[j].position, photons, seen, received, 1.0))
          && emitters[j].color == Add(before.emitters[j].color, Gain(plates, k, before.emitters[j].position, photons, seen, received, share)))
  }

  /** A sample the photon does not reach is done with photon `m` as it is. */
  lemma ProgressSkip(plates: seq<Plate>, k: nat, photons: seq<Photon>, received: Received,
                     receivers: seq<Vec3>, emitters: seq<Photon>, m: nat, i: nat)
    requires k < |plates| && m < |photons| && i < |emitters|
    requires Progress(plates, k, photons, received, receivers, emitters, m, i)
    requires !Reaches(plates, k, emitters[i].position, photons[m])
    ensures Progress(plates, k, photons, received, receivers, emitters, m, i + 1)
  {
    var position := emitters[i].position;
    GainStep(plates, k, position, photons, m, received, 1.0);
    GainStep(plates, k, position, photons, m, received, plates[k].material.retransmission);
  }

  /** A sample the photon reaches is done with photon `m` once its receiver gains what
      arrives and its emitter the retransmitted share. */
  lemma ProgressAdd(plates: seq<Plate>, k: nat, photons: seq<Photon>, received: Received,
                    receivers: seq<Vec3>, emitters: seq<Photon>, m: nat, i: nat)
    requires k < |plates| && m < |photons| && i < |emitters|
    requires Progress(plates, k, photons, received, receivers, emitters, m, i)
    requires Reaches(plates, k, emitters[i].position, photons[m])
    ensures
      var energy := received(photons[m], emitters[i].position, plates[k].material);
      var share := plates[k].material.retransmission;
      Progress(plates, k, photons, received, receivers[i := Add(receivers[i], energy)],
               emitters[i := emitters[i].(color := Add(emitters[i].color, Scale(energy, share)))], m, i + 1)
  {
    var before := plates[k];
    var position := emitters[i].position;
    var share := before.material.retransmission;
    var energy := received(photons[m], position, before.material);
    GainStep(plates, k, position, photons, m, received, 1.0);
    GainStep(plates, k, position, photons, m, received, share);
    AddAssoc(before.receivers[i], Gain(plates, k, position, photons, m, received, 1.0), energy);
    AddAssoc(before.emitters[i].color, Gain(plates, k, position, photons, m, received, share), Scale(energy, share));
    assert Scale(energy, 1.0) == energy;
  }

  /** The work of one plate in a pass: for each photon, for each sample point (receivers
      and emitters walked in step), skip it when the photon does not reach it, otherwise
      add what it receives to the receiver and the retransmitted share to the emitter. */
  method IlluminatePlate(plates: seq<Plate>, k: nat, photons: seq<Photon>, received: Received)
    returns (after: Plate)
    requires k < |plates| && |plates[k].receivers| == |plates[k].emitters|
    ensures Illuminated(plates, k, photons, received, after)
  {
    var plate := plates[k];
    var share := plate.material.retransmission;
    var receivers, emitters := plate.receivers, plate.emitters;
    for m := 0 to |photons|
      invariant |receivers| == |plate.receivers| == |emitters|
      invariant forall j :: 0 <= j < |emitters| ==>
                  && emitters[j].position == plate.emitters[j].position
                  && emitters[j].normal == plate.emitters[j].normal
                  && receivers[j] == Add(plate.receivers[j], Gain(plates, k, plate.emitters[j].position, photons, m, received, 1.0))
                  && emitters[j].color == Add(plate.emitters[j].color, Gain(plates, k, plate.emitters[j].position, photons, m, received, share))
    {
      var photon := photons[m];
      for i := 0 to |receivers|
        invariant Progress(plates, k, photons, received, receivers, emitters, m, i)
      {
        var position := emitters[i].position;
        var dir := Sub(photon.position, position);
        if dir == Zero || !Facing(dir, photon.normal) {
          ProgressSkip(plates, k, photons, received, receivers, emitters, m, i);
          continue;
        }
        var blocked := IsOccluded(plates, k, position, photon.position);
        if blocked {
          ProgressSkip(plates, k, photons, received, receivers, emitters, m, i);
          continue;
        }
        var energy := received(photon, position, plate.material);
        ProgressAdd(plates, k, photons, received, receivers, emitters, m, i);
        receivers := receivers[i := Add(receivers[i], energy)];
        emitters := emitters[i := emitters[i].(color := Add(emitters[i].color, Scale(energy, share)))];
      }
    }
    after := plate.(receivers := receivers, emitters := emitters);
  }

  /** Every plate's buffers have one receiver per emitter. */
  predicate Paired(plates: seq<Plate>)
  {
    forall k :: 0 <= k < |plates| ==> |plates[k].receivers| == |plates[k].emitters|
  }

  /** One pass over all plates; plate `k` is written only by its own step, and reads the
      geometry of the others. */
  method Pass(plates: seq<Plate>, photons: seq<Photon>, received: Received) returns (plates': seq<Plate>)
    requires Paired(plates)
    ensures |plates'| == |plates|
    ensures forall k :: 0 <= k < |plates| ==> Illuminated(plates, k, photons, received, plates'[k])
  {
    plates' := plates;
    for k := 0 to |plates|
      invariant |plates'| == |plates|
      invariant forall j :: 0 <= j < k ==> Illuminated(plates, j, photons, received, plates'[j])
      invariant forall j :: k <= j < |plates| ==> plates'[j] == plates[j]
    {
      var p := IlluminatePlate(plates, k, photons, received);
      plates' := plates'[k := p];
    }
  }

  /** A pass keeps every plate's surface and buffer sizes. */
  lemma PassKeepsShape(plates: seq<Plate>, photons: seq<Photon>, received: Received, plates': seq<Plate>)
    requires |plates'| == |plates|
    requires forall k :: 0 <= k < |plates| ==> Illuminated(plates, k, photons, received, plates'[k])
    ensures Paired(plates) ==> Paired(plates')
    ensures forall k :: 0 <= k < |plates| ==> SameSurface(plates[k], plates'[k])
  {
  }

  /** With no retransmission anywhere, a pass leaves every emitter's energy as it was. */
  lemma NoRetransmissionKeepsEmitters(plates: seq<Plate>, photons: seq<Photon>, received: Received, plates': seq<Plate>)
    requires |plates'| == |plates|
    requires forall k :: 0 <= k < |plates| ==> plates[k].material.retransmission == 0.0
    requires forall k :: 0 <= k < |plates| ==> Illuminated(plates, k, photons, received, plates'[k])
    ensures forall k, i :: 0 <= k < |plates| && 0 <= i < |plates[k].emitters| ==>
              i < |plates'[k].emitters| && plates'[k].emitters[i].color == plates[k].emitters[i].color
  {
    forall k, i | 0 <= k < |plates| && 0 <= i < |plates[k].emitters|
      ensures i < |plates'[k].emitters| && plates'[k].emitters[i].color == plates[k].emitters[i].color
    {
      ZeroShareGain(plates, k, plates[k].emitters[i].position, photons, |photons|, received);
    }
  }

  /** A sample point that no photon of the wavefront reaches keeps its receiver and
      emitter energy. */
  lemma DarkSampleUnchanged(plates: seq<Plate>, k: nat, photons: seq<Photon>, received: Received, after: Plate, i: nat)
    requires k < |plates| && Illuminated(plates, k, photons, received, after)
    requires i < |plates[k].receivers| && i < |plates[k].emitters|
    requires forall m :: 0 <= m < |photons| ==> !Reaches(plates, k, plates[k].emitters[i].position, photons[m])
    ensures after.receivers[i] == plates[k].receivers[i]
    ensures after.emitters[i] == plates[k].emitters[i]
  {
    var position := plates[k].emitters[i].position;
    DarkGain(plates, k, position, photons, |photons|, received, 1.0);
    DarkGain(plates, k, position, photons, |photons|, received, plates[k].material.retransmission);
  }

  /** The emitter of every sample gains exactly the retransmission ratio times what its
      receiver gains. */
  lemma RetransmittedShare(plates: seq<Plate>, k: nat, photons: seq<Photon>, received: Received, after: Plate, i: nat)
    requires k < |plates| && Illuminated(plates, k, photons, received, after)
    requires i < |plates[k].receivers| && i < |plates[k].emitters|
    ensures Sub(after.emitters[i].color, plates[k].emitters[i].color)
         == Scale(Sub(after.receivers[i], plates[k].receivers[i]), plates[k].material.retransmission)
  {
    GainShare(plates, k, plates[k].emitters[i].position, photons, |photons|, received, plates[k].material.retransmission);
  }
}
