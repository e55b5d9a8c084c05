/** Between passes every sample's emitter becomes the next wavefront: a photon just above
    the sample when its stored energy, spread over the texture, is bright enough on all
    three channels; the stored energy is then cleared. The bake runs passes until the
    wavefront is empty or the pass budget is spent. */
module Wavefront {
  import opened Vectors
  import opened Scene
  import opened Samples
  import opened Transport

  /** Distance a re-emitted photon is lifted above its plate along the plate normal. */
  const Shift: real := 0.0000001

  /** Number of propagation passes the bake allows. */
  const MaxRenderingPass: nat := 4

  /** All three channels exceed the threshold. */
  predicate Bright(color: Vec3)
  {
    color.x > Epsilon && color.y > Epsilon && color.z > Epsilon
  }

  /** The photon an emitter of `plate` sends into the next pass. */
  function Emitted(plate: Plate, emitter: Photon, res: nat): (r: Photon)
    requires res > 0
    ensures r.normal == plate.normal
    ensures Sub(r.position, emitter.position) == Scale(plate.normal, Shift)
    ensures r.color == Scale(emitter.color, LightResolution(res))
  {
    Photon(Add(emitter.position, Scale(plate.normal, Shift)), plate.normal, Scale(emitter.color, LightResolution(res)))
  }

  /** The emitter is bright enough to be re-emitted. */
  predicate Emits(emitter: Photon, res: nat)
    requires res > 0
  {
    Bright(Scale(emitter.color, LightResolution(res)))
  }

  /** Photons re-emitted by the first `n` emitters of `plate`, in order. */
  function PlateWave(plate: Plate, res: nat, n: nat): seq<Photon>
    requires res > 0 && n <= |plate.emitters|
  {
    if n == 0 then []
    else
      var e := plate.emitters[n - 1];
      PlateWave(plate, res, n - 1) + (if Emits(e, res) then [Emitted(plate, e, res)] else [])
  }

  /** Photons re-emitted by the first `n` plates, plate by plate. */
  function Wave(plates: seq<Plate>, res: nat, n: nat): seq<Photon>
    requires res > 0 && n <= |plates|
  {
    if n == 0 then []
    else Wave(plates, res, n - 1) + PlateWave(plates[n - 1], res, |plates[n - 1].emitters|)
  }

  /** `after` is `before` with every emitter's stored energy cleared. */
  ghost predicate Drained(before: Plate, after: Plate)
  {
    && SameSurface(before, after)
    && after.receivers == before.receivers
    && after.colors == before.colors
    && |after.emitters| == |before.emitters|
    && forall i :: 0 <= i < |before.emitters| ==> after.emitters[i] == before.emitters[i].(color := Zero)
  }

  /** Turns the emitters of one plate into photons and clears them. */
  method DrainPlate(plate: Plate, res: nat) returns (photons: seq<Photon>, plate': Plate)
    requires res > 0
    ensures photons == PlateWave(plate, res, |plate.emitters|)
    ensures Drained(plate, plate')
  {
    var light := LightResolution(res);
    photons := [];
    var emitters := plate.emitters;
    for i := 0 to |emitters|
      invariant |emitters| == |plate.emitters|
      invariant photons == PlateWave(plate, res, i)
      invariant forall j :: 0 <= j < i ==> emitters[j] == plate.emitters[j].(color := Zero)
      invariant forall j :: i <= j < |emitters| ==> emitters[j] == plate.emitters[j]
    {
      var color := Scale(emitters[i].color, light);
      if color.x > Epsilon && color.y > Epsilon && color.z > Epsilon {
        var position := Add(emitters[i].position, Scale(plate.normal, Shift));
        photons := photons + [Photon(position, plate.normal, color)];
      }
      emitters := emitters[i := emitters[i].(color := Zero)];
    }
    plate' := plate.(emitters := emitters);
  }

  /** Turns the emitters of all plates, in order, into the next wavefront and clears
      them. */
  method Rebuild(plates: seq<Plate>, res: nat) returns (photons: seq<Photon>, plates': seq<Plate>)
    requires res > 0
    ensures photons == Wave(plates, res, |plates|)
    ensures |plates'| == |plates|
    ensures forall k :: 0 <= k < |plates| ==> Drained(plates[k], plates'[k])
  {
    photons := [];
    plates' := plates;
    for k := 0 to |plates|
      invariant photons == Wave(plates, res, k)
      invariant |plates'| == |plates|
      invariant forall j :: 0 <= j < k ==> Drained(plates[j], plates'[j])
    {
      var emitted, drained := DrainPlate(plates[k], res);
      photons := photons + emitted;
      plates' := plates'[k := drained];
    }
  }

  // ---------------------------------------------------------------------------
  // What the wavefront holds
  // ---------------------------------------------------------------------------

  /** A plate re-emits at most one photon per emitter. */
  lemma {:induction false} PlateWaveLength(plate: Plate, res: nat, n: nat)
    requires res > 0 && n <= |plate.emitters|
    ensures |PlateWave(plate, res, n)| <= n
  {
    if n > 0 {
      PlateWaveLength(plate, res, n - 1);
    }
  }

  /** With at most `cap` emitters per plate, `n` plates re-emit at most `n * cap`
      photons. */
  lemma {:induction false} WaveLength(plates: seq<Plate>, res: nat, n: nat, cap: nat)
    requires res > 0 && n <= |plates|
    requires forall k :: 0 <= k < |plates| ==> |plates[k].emitters| <= cap
    ensures |Wave(plates, res, n)| <= n * cap
  {
    if n > 0 {
      WaveLength(plates, res, n - 1, cap);
      PlateWaveLength(plates[n - 1], res, |plates[n - 1].emitters|);
      assert n * cap == (n - 1) * cap + cap;
    }
  }

  /** Plates prepared at resolution `res` re-emit at most `res * res` photons each. */
  lemma PreparedWaveLength(plates: seq<Plate>, res: nat)
    requires res > 0
    requires forall k :: 0 <= k < |plates| ==> |plates[k].emitters| == res * res
    ensures |Wave(plates, res, |plates|)| <= |plates| * (res * res)
  {
    WaveLength(plates, res, |plates|, res * res);
  }

  /** A photon belongs to a plate's wave exactly when it is what a bright emitter of the
      plate sends. */
  lemma {:induction false} PlateWaveMembers(plate: Plate, res: nat, n: nat, photon: Photon)
    requires res > 0 && n <= |plate.emitters|
    ensures photon in PlateWave(plate, res, n) <==>
            exists i :: 0 <= i < n && Emits(plate.emitters[i], res) && photon == Emitted(plate, plate.emitters[i], res)
  {
    if n > 0 {
      PlateWaveMembers(plate, res, n - 1, photon);
      var e := plate.emitters[n - 1];
      if photon in PlateWave(plate, res, n) && photon !in PlateWave(plate, res, n - 1) {
        assert Emits(e, res) && photon == Emitted(plate, e, res);
      }
      if exists i :: 0 <= i < n && Emits(plate.emitters[i], res) && photon == Emitted(plate, plate.emitters[i], res) {
        var i :| 0 <= i < n && Emits(plate.emitters[i], res) && photon == Emitted(plate, plate.emitters[i], res);
        if i == n - 1 {
          assert photon in PlateWave(plate, res, n);
        }
      }
    }
  }

  /** The next wavefront holds exactly the photons that the bright emitters of the plates
      send: lifted along their plate's normal, with the energy spread over the texture. */
  lemma {:induction false} WaveMembers(plates: seq<Plate>, res: nat, n: nat, photon: Photon)
    requires res > 0 && n <= |plates|
    ensures photon in Wave(plates, res, n) <==>
            exists k, i :: 0 <= k < n && 0 <= i < |plates[k].emitters| && Emits(plates[k].emitters[i], res)
                           && photon == Emitted(plates[k], plates[k].emitters[i], res)
  {
    if n > 0 {
      var last := plates[n - 1];
      var prev, tail := Wave(plates, res, n - 1), PlateWave(last, res, |last.emitters|);
      assert Wave(plates, res, n) == prev + tail;
      WaveMembers(plates, res, n - 1, photon);
      PlateWaveMembers(last, res, |last.emitters|, photon);
      if photon in tail {
        var i :| 0 <= i < |last.emitters| && Emits(last.emitters[i], res) && photon == Emitted(last, last.emitters[i], res);
        assert 0 <= n - 1 < n && Emits(plates[n - 1].emitters[i], res);
      }
      if exists k, i :: 0 <= k < n && 0 <= i < |plates[k].emitters| && Emits(plates[k].emitters[i], res)
                        && photon == Emitted(plates[k], plates[k].emitters[i], res) {
        var k, i :| 0 <= k < n && 0 <= i < |plates[k].emitters| && Emits(plates[k].emitters[i], res)
                    && photon == Emitted(plates[k], plates[k].emitters[i], res);
        if k == n - 1 {
          assert photon in tail;
        } else {
          assert photon in prev;
        }
      }
    }
  }

  /** Emitters with no stored energy send nothing. */
  lemma {:induction false} DarkPlateWave(plate: Plate, res: nat, n: nat)
    requires res > 0 && n <= |plate.emitters|
    requires forall i :: 0 <= i < |plate.emitters| ==> plate.emitters[i].color == Zero
    ensures PlateWave(plate, res, n) == []
  {
    if n > 0 {
      DarkPlateWave(plate, res, n - 1);
      assert !Emits(plate.emitters[n - 1], res);
    }
  }

  /** Plates whose emitters hold no energy give an empty wavefront. */
  lemma {:induction false} DarkWave(plates: seq<Plate>, res: nat, n: nat)
    requires res > 0 && n <= |plates|
    requires forall k, i :: 0 <= k < |plates| && 0 <= i < |plates[k].emitters| ==> plates[k].emitters[i].color == Zero
    ensures Wave(plates, res, n) == []
  {
    if n > 0 {
      DarkWave(plates, res, n - 1);
      DarkPlateWave(plates[n - 1], res, |plates[n - 1].emitters|);
    }
  }

  /** Materials that retransmit nothing end the bake after one pass: once the emitters are
      cleared, a pass stores nothing in them and the next wavefront is empty. */
  lemma NoRetransmissionEndsBake(plates: seq<Plate>, photons: seq<Photon>, received: Received, lit: seq<Plate>, res: nat)
    requires res > 0 && |lit| == |plates|
    requires forall k :: 0 <= k < |plates| ==> plates[k].material.retransmission == 0.0
    requires forall k, i :: 0 <= k < |plates| && 0 <= i < |plates[k].emitters| ==> plates[k].emitters[i].color == Zero
    requires forall k :: 0 <= k < |plates| ==> Illuminated(plates, k, photons, received, lit[k])
    ensures Wave(lit, res, |lit|) == []
  {
    NoRetransmissionKeepsEmitters(plates, photons, received, lit);
    DarkWave(lit, res, |lit|);
  }

  // ---------------------------------------------------------------------------
  // The bake
  // ---------------------------------------------------------------------------

  /** One pass of the bake: `lit` is the result of propagating `photons` over `plates`,
      `next` is the wavefront `lit` re-emits and `drained` is `lit` with its emitters
      cleared. */
  ghost predicate BakeStep(plates: seq<Plate>, photons: seq<Photon>, received: Received, res: nat,
                           lit: seq<Plate>, next: seq<Photon>, drained: seq<Plate>)
    requires res > 0
  {
    && |lit| == |plates| && |drained| == |plates|
    && (forall k :: 0 <= k < |plates| ==> Illuminated(plates, k, photons, received, lit[k]))
    && next == Wave(lit, res, |lit|)
    && (forall k :: 0 <= k < |plates| ==> Drained(lit[k], drained[k]))
  }

  /** A bake step keeps each plate's surface and its one-receiver-per-emitter layout. */
  lemma BakeStepKeepsShape(plates: seq<Plate>, photons: seq<Photon>, received: Received, res: nat,
                           lit: seq<Plate>, next: seq<Photon>, drained: seq<Plate>)
    requires res > 0 && BakeStep(plates, photons, received, res, lit, next, drained)
    ensures Paired(plates) ==> Paired(drained)
    ensures forall k :: 0 <= k < |plates| ==>
              && SameSurface(plates[k], drained[k])
              && |drained[k].receivers| == |plates[k].receivers|
              && |drained[k].emitters| == |plates[k].emitters|
  {
    PassKeepsShape(plates, photons, received, lit);
  }

  /** `states`, `lits` and `waves` record `passes` bake steps, each from a non-empty
      wavefront. */
  ghost predicate Trace(received: Received, res: nat, passes: nat,
                        states: seq<seq<Plate>>, lits: seq<seq<Plate>>, waves: seq<seq<Photon>>)
    requires res > 0
  {
    && |states| == |waves| == passes + 1 && |lits| == passes
    && forall p :: 0 <= p < passes ==>
         waves[p] != [] && BakeStep(states[p], waves[p], received, res, lits[p], waves[p + 1], states[p + 1])
  }

  /** A trace grows by one step taken from its last state. */
  lemma TraceExtend(received: Received, res: nat, passes: nat,
                    states: seq<seq<Plate>>, lits: seq<seq<Plate>>, waves: seq<seq<Photon>>,
                    lit: seq<Plate>, next: seq<Photon>, drained: seq<Plate>)
    requires res > 0 && Trace(received, res, passes, states, lits, waves)
    requires waves[passes] != [] && BakeStep(states[passes], waves[passes], received, res, lit, next, drained)
    ensures Trace(received, res, passes + 1, states + [drained], lits + [lit], waves + [next])
  {
    var states', lits', waves' := states + [drained], lits + [lit], waves + [next];
    forall p | 0 <= p < passes + 1
      ensures waves'[p] != [] && BakeStep(states'[p], waves'[p], received, res, lits'[p], waves'[p + 1], states'[p + 1])
    {
      assert states'[p] == states[p] && waves'[p] == waves[p];
      if p < passes {
        assert lits'[p] == lits[p] && waves'[p + 1] == waves[p + 1] && states'[p + 1] == states[p + 1];
      }
    }
  }

  /** The bake: passes run while the wavefront is not empty, and at most
      `MaxRenderingPass` of them; the pass counter is tested before it is incremented. The
      ghost `states`, `lits` and `waves` record the plates, the lit plates and the
      wavefront of every pass. */
  method Bake(plates: seq<Plate>, photons: seq<Photon>, received: Received, res: nat)
    returns (plates': seq<Plate>, photons': seq<Photon>, passes: nat,
             ghost states: seq<seq<Plate>>, ghost lits: seq<seq<Plate>>, ghost waves: seq<seq<Photon>>)
    requires res > 0 && Paired(plates)
    ensures passes <= MaxRenderingPass
    ensures passes == 0 <==> photons == []
    ensures passes < MaxRenderingPass ==> photons' == []
    ensures |plates'| == |plates| && Paired(plates')
    ensures forall k :: 0 <= k < |plates| ==>
              && SameSurface(plates[k], plates'[k])
              && |plates'[k].receivers| == |plates[k].receivers|
              && |plates'[k].emitters| == |plates[k].emitters|
    ensures Trace(received, res, passes, states, lits, waves)
    ensures states[0] == plates && waves[0] == photons
    ensures states[passes] == plates' && waves[passes] == photons'
  {
    plates', photons' := plates, photons;
    states, lits, waves := [plates], [], [photons];
    passes := 0;
    var renderingPass: nat := 0;
    while true
      invariant renderingPass == passes <= MaxRenderingPass
      invariant passes == 0 ==> photons' == photons
      invariant |plates'| == |plates| && Paired(plates')
      invariant forall k :: 0 <= k < |plates| ==>
                  && SameSurface(plates[k], plates'[k])
                  && |plates'[k].receivers| == |plates[k].receivers|
                  && |plates'[k].emitters| == |plates[k].emitters|
      invariant Trace(received, res, passes, states, lits, waves)
      invariant states[0] == plates && waves[0] == photons
      invariant states[passes] == plates' && waves[passes] == photons'
      decreases MaxRenderingPass - renderingPass
    {
      if photons' == [] {
        break;
      }
      var counted := renderingPass;
      renderingPass := renderingPass + 1;
      if counted == MaxRenderingPass {
        break;
      }
      passes := passes + 1;
      var lit := Pass(plates', photons', received);
      var next, drained := Rebuild(lit, res);
      BakeStepKeepsShape(plates', photons', received, res, lit, next, drained);
      TraceExtend(received, res, passes - 1, states, lits, waves, lit, next, drained);
      states, lits, waves := states + [drained], lits + [lit], waves + [next];
      plates', photons' := drained, next;
    }
  }
}
