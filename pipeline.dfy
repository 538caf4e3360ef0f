/** The pipeline: seven steps in a fixed order, each fed with copies of an
    earlier step's outputs, recorded under fixed keys, and consolidated into a
    projection that lists one transform per step. Each step and each phase
    is proved against the run statement of `Runs`. */
module Pipelines {
  import opened Wrappers
  import opened Linalg
  import opened Geometry
  import opened Conversions
  import opened Preprocess
  import opened Dataclass
  import opened Decorators
  import opened Steps
  import opened Organs
  import opened Runs
  import opened Records

  /** Step 1, `normalize_rigid`, on deep copies of both organs' point
      clouds. */
  method NormalizeRigidStep(fns: StepFunctions, source: Organ, target: Organ, o: Oracles)
      returns (r: Result<PipelineStep, Error>, ghost cs: PointCloud?, ghost ct: PointCloud?,
               ghost ts: Transform?, ghost tt: Transform?)
    modifies RunRecords(fns)[0]
    ensures var spec := NormalizeSpec(old(source.mesh.vertices), CloudKind, old(target.mesh.vertices), CloudKind, "unit", o.sqrt, o.euler);
            && (r.Ok? <==> spec.Ok?)
            && (r.Err? ==> r.error == spec.error)
            && (r.Ok? ==>
                  r.value == RunRecords(fns)[0] && PairMade(r.value, cs, ct, ts, tt, spec.value)
                  && fresh(cs) && fresh(ct) && fresh(ts) && fresh(tt))
  {
    cs, ct, ts, tt := null, null, null, null;
    var src := CopiedView(source);
    var tgt := CopiedView(target);
    r := Normalize(fns.normalizeRigid, "unit", src, tgt, o.sqrt, o.euler);
    if r.Ok? {
      var out, tr := r.value.output.value, r.value.transform.value;
      cs, ct, ts, tt := out.source.cloud, out.target.value.cloud, tr.source, tr.target.value;
      assert {cs, ct, ts, tt} <= Produced(r.value);
    }
  }

  /** Step 2, `global_registration`, on deep copies of the clouds step 1
      stored; clouds are always accepted. */
  method GlobalStep(fns: StepFunctions, n: PipelineStep, ghost cs: PointCloud, ghost ct: PointCloud,
                    config: RigidConfig, o: Oracles) returns (s: PipelineStep, ghost g: Transform)
    requires n.output == Some(Outputs(Cloud(cs), Some(Cloud(ct)), None))
    modifies RunRecords(fns)[1]
    ensures s == RunRecords(fns)[1] && fresh(g)
    ensures s.transform == Some(Transforms(g, None))
    ensures Holds(g, GlobalSpec(cs.points, ct.points, config, o.ransac), Unused)
  {
    var a := CopiedCloud(n.output.value.source, cs.points);
    var b := CopiedCloud(n.output.value.target.value, ct.points);
    var r := GlobalRegistration(fns.globalRegistration, a, b, config, o.ransac, o.euler);
    if r.Err? {
      // both copies are clouds
      assert false;
    }
    s, g := r.value, r.value.transform.value.source;
    assert g in Produced(s);
  }

  /** Step 3, `refine_registration`, on fresh deep copies of the clouds step
      1 stored, seeded with the transform step 2 stored; the output is the
      copied source, moved in place. */
  method RefineStep(fns: StepFunctions, n: PipelineStep, ghost cs: PointCloud, ghost ct: PointCloud,
                    gl: PipelineStep, ghost g: Transform, config: RigidConfig, o: Oracles)
      returns (s: PipelineStep, ghost c: PointCloud, ghost t: Transform)
    requires n.output == Some(Outputs(Cloud(cs), Some(Cloud(ct)), None))
    requires gl.transform == Some(Transforms(g, None))
    modifies RunRecords(fns)[2]
    ensures var spec := RefineSpec(cs.points, CloudKind, ct.points, CloudKind, g.matrix, config, o.icp);
            && spec.Ok?
            && s == RunRecords(fns)[2] && fresh(c) && fresh(t)
            && s.output == Some(Outputs(Cloud(c), None, None)) && s.transform == Some(Transforms(t, None))
            && c.points == spec.value.points && Holds(t, spec.value.params, spec.value.cache)
  {
    var a := CopiedCloud(n.output.value.source, cs.points);
    var b := CopiedCloud(n.output.value.target.value, ct.points);
    var r := RefineRegistration(fns.refineRegistration, a, b, config, gl.transform.value, o.icp, o.euler);
    if r.Err? {
      // ICP accepts two clouds
      assert false;
    }
    s, c, t := r.value, a.cloud, r.value.transform.value.source;
  }

  /** Step 4, `normalize_nonrigid`: the rigidly registered source and the
      unit-scaled target, deep-copied, normalised by their spread. */
  method NormalizeNonrigidStep(fns: StepFunctions, rf: PipelineStep, ghost c: PointCloud,
                               n: PipelineStep, ghost ct: PointCloud, o: Oracles)
      returns (r: Result<PipelineStep, Error>, ghost cs4: PointCloud?, ghost ct4: PointCloud?,
               ghost ts4: Transform?, ghost tt4: Transform?)
    requires rf.output == Some(Outputs(Cloud(c), None, None))
    requires n.output.Some? && n.output.value.target == Some(Cloud(ct))
    modifies RunRecords(fns)[3]
    ensures var spec := NormalizeSpec(c.points, CloudKind, ct.points, CloudKind, "stddev", o.sqrt, o.euler);
            && (r.Ok? <==> spec.Ok?)
            && (r.Err? ==> r.error == spec.error)
            && (r.Ok? ==>
                  r.value == RunRecords(fns)[3] && PairMade(r.value, cs4, ct4, ts4, tt4, spec.value)
                  && fresh(cs4) && fresh(ct4) && fresh(ts4) && fresh(tt4))
  {
    cs4, ct4, ts4, tt4 := null, null, null, null;
    var a := CopiedCloud(rf.output.value.source, c.points);
    var b := CopiedCloud(n.output.value.target.value, ct.points);
    r := Normalize(fns.normalizeNonrigid, "stddev", a, b, o.sqrt, o.euler);
    if r.Ok? {
      var out, tr := r.value.output.value, r.value.transform.value;
      cs4, ct4, ts4, tt4 := out.source.cloud, out.target.value.cloud, tr.source, tr.target.value;
      assert {cs4, ct4, ts4, tt4} <= Produced(r.value);
    }
  }

  /** Step 5, `nonrigid_registration`, on deep copies of the clouds step 4
      stored. */
  method NonrigidStep(fns: StepFunctions, nn: PipelineStep, ghost cs4: PointCloud, ghost ct4: PointCloud,
                      params: map<string, string>, o: Oracles)
      returns (r: Result<PipelineStep, Error>, ghost c5: PointCloud?, ghost reg: PointCloud?, ghost t5: Transform?)
    requires nn.output == Some(Outputs(Cloud(cs4), Some(Cloud(ct4)), None))
    modifies RunRecords(fns)[4]
    ensures var spec := NonrigidSpec(cs4.points, CloudKind, ct4.points, CloudKind, params, o.bcpd, o.euler);
            && (r.Ok? <==> spec.Ok?)
            && (r.Err? ==> r.error == spec.error)
            && (r.Ok? ==>
                  r.value == RunRecords(fns)[4] && c5 != null && reg != null && t5 != null
                  && fresh(c5) && fresh(reg) && fresh(t5)
                  && r.value.output == Some(Outputs(Cloud(c5), None, Some(Cloud(reg))))
                  && r.value.transform == Some(Transforms(t5, None))
                  && c5.points == spec.value.source.points && reg.points == spec.value.registered
                  && Holds(t5, spec.value.source.params, spec.value.source.cache))
  {
    c5, reg, t5 := null, null, null;
    var a := CopiedCloud(nn.output.value.source, cs4.points);
    var b := CopiedCloud(nn.output.value.target.value, ct4.points);
    r := NonrigidRegistration(fns.nonrigidRegistration, a, b, params, o.bcpd, o.euler);
    if r.Ok? {
      var out := r.value.output.value;
      c5, reg, t5 := out.source.cloud, out.registered.value.cloud, r.value.transform.value.source;
      assert {c5, reg, t5} <= Produced(r.value);
    }
  }

  /** Steps 6 and 7, `denormalize_nonrigid` and `denormalize_rigid`: the
      `Source` output of the step before, deep-copied twice, inverted by the
      `Target` transform a normalisation stored. */
  method DenormalizeStep(fns: StepFunctions, k: nat, prev: PipelineStep, ghost c: PointCloud,
                         norm: PipelineStep, ghost t: Transform)
      returns (r: Result<PipelineStep, Error>, ghost cs: PointCloud?, ghost ct: PointCloud?)
    requires k == 5 || k == 6
    requires prev.output.Some? && prev.output.value.source == Cloud(c)
    requires norm.transform.Some? && norm.transform.value.target == Some(t)
    modifies RunRecords(fns)[k], t
    ensures var spec := DenormalizeSpec(t.AsParams(), old(t.State()), c.points, CloudKind, c.points, CloudKind);
            && (r.Ok? <==> spec.Ok?)
            && (r.Err? ==> r.error == spec.error)
            && (r.Ok? ==>
                  r.value == RunRecords(fns)[k] && cs != null && ct != null
                  && r.value.output == Some(Outputs(Cloud(cs), Some(Cloud(ct)), None))
                  && r.value.transform == Some(Transforms(t, Some(t))) && t.State() == spec.value.cache
                  && cs.points == spec.value.source && ct.points == spec.value.target)
  {
    cs, ct := null, null;
    var a := CopiedCloud(prev.output.value.source, c.points);
    var b := CopiedCloud(prev.output.value.source, c.points);
    var d := if k == 5 then fns.denormalizeNonrigid else fns.denormalizeRigid;
    r := Denormalize(d, a, b, norm.transform.value);
    if r.Ok? {
      var out := r.value.output.value;
      cs, ct := out.source.cloud, out.target.value.cloud;
    }
  }

  /** `deepcopy(organ.pointcloud)`: a new cloud of the organ's vertices. */
  method CopiedView(organ: Organ) returns (g: Geometry)
    ensures g.Cloud? && fresh(g.cloud) && g.cloud.points == organ.mesh.vertices
  {
    var view := ToPointCloud(Surface(organ.mesh));
    g := DeepCopy(view);
  }

  /** `deepcopy` of a cloud a step stored: a new cloud of the same points. */
  method CopiedCloud(g: Geometry, ghost pts: seq<Vec3>) returns (h: Geometry)
    requires Holding(g, CloudKind, pts)
    ensures h.Cloud? && fresh(h.cloud) && h.cloud.points == pts
  {
    h := DeepCopy(g);
  }

  /** Steps 2 and 3, after step 1 stored the normalised pair `pr`; neither
      can fail. */
  method RegisterRigid(fns: StepFunctions, n: PipelineStep, ghost cs: PointCloud, ghost ct: PointCloud,
                       ghost ts: Transform, ghost tt: Transform, ghost pr: Pair, config: RigidConfig, o: Oracles)
      returns (ghost g: Transform, ghost c3: PointCloud, ghost t3: Transform)
    requires fns.Valid() && n == RunRecords(fns)[0] && PairMade(n, cs, ct, ts, tt, pr)
    modifies RunRecords(fns)[1], RunRecords(fns)[2]
    ensures PairMade(n, cs, ct, ts, tt, pr)
    ensures fresh(g) && fresh(c3) && fresh(t3)
    ensures var gl := GlobalSpec(pr.source.points, pr.target.points, config, o.ransac);
            var a := RefineSpec(pr.source.points, CloudKind, pr.target.points, CloudKind, gl.matrix, config, o.icp);
            && RunRecords(fns)[1].transform == Some(Transforms(g, None)) && Holds(g, gl, Unused)
            && a.Ok?
            && RunRecords(fns)[2].output == Some(Outputs(Cloud(c3), None, None))
            && RunRecords(fns)[2].transform == Some(Transforms(t3, None))
            && c3.points == a.value.points && Holds(t3, a.value.params, a.value.cache)
  {
    RunRecordsDistinct(fns);
    var s2;
    s2, g := GlobalStep(fns, n, cs, ct, config, o);
    label Registered:
    var s3;
    s3, c3, t3 := RefineStep(fns, n, cs, ct, s2, g, config, o);
    assert unchanged@Registered(s2, g);
  }

  /** Steps 1 to 3. Only step 1 can fail. */
  method RigidPhase(fns: StepFunctions, source: Organ, target: Organ, config: RigidConfig, o: Oracles)
      returns (r: Result<(), Error>, ghost m: Option<RigidMade>)
    requires fns.Valid()
    modifies RunRecords(fns)[0], RunRecords(fns)[1], RunRecords(fns)[2]
    ensures var spec := RigidSpec(old(source.mesh.vertices), old(target.mesh.vertices), config, o);
            && (r.Ok? <==> spec.Ok?)
            && (r.Err? ==> r.error == spec.error)
            && (r.Ok? ==>
                  m.Some? && RigidHolds(fns, m.value, spec.value)
                  && fresh(m.value.ts) && fresh(m.value.tt) && fresh(m.value.g) && fresh(m.value.t3))
  {
    m := None;
    ghost var n := NormalizeSpec(source.mesh.vertices, CloudKind, target.mesh.vertices, CloudKind, "unit", o.sqrt, o.euler);
    var s1, cs, ct, ts, tt := NormalizeRigidStep(fns, source, target, o);
    if s1.Err? {
      return Err(s1.error), None;
    }
    ghost var g, c3, t3 := RegisterRigid(fns, s1.value, cs, ct, ts, tt, n.value, config, o);
    m := Some(RigidMade(cs, ct, ts, tt, g, c3, t3));
    r := Ok(());
  }

  /** Step 5, after step 4 stored the normalised pair `pr`. */
  method DeformPair(fns: StepFunctions, n: PipelineStep, ghost cs4: PointCloud, ghost ct4: PointCloud,
                    ghost ts4: Transform, ghost tt4: Transform, ghost pr: Pair, params: map<string, string>, o: Oracles)
      returns (r: Result<(), Error>, ghost c5: PointCloud?, ghost reg: PointCloud?, ghost t5: Transform?)
    requires fns.Valid() && n == RunRecords(fns)[3] && PairMade(n, cs4, ct4, ts4, tt4, pr)
    modifies RunRecords(fns)[4]
    ensures PairMade(n, cs4, ct4, ts4, tt4, pr)
    ensures var spec := NonrigidSpec(pr.source.points, CloudKind, pr.target.points, CloudKind, params, o.bcpd, o.euler);
            && (r.Ok? <==> spec.Ok?)
            && (r.Err? ==> r.error == spec.error)
            && (r.Ok? ==>
                  c5 != null && reg != null && t5 != null && fresh(c5) && fresh(reg) && fresh(t5)
                  && RunRecords(fns)[4].output == Some(Outputs(Cloud(c5), None, Some(Cloud(reg))))
                  && RunRecords(fns)[4].transform == Some(Transforms(t5, None))
                  && c5.points == spec.value.source.points && reg.points == spec.value.registered
                  && Holds(t5, spec.value.source.params, spec.value.source.cache))
  {
    RunRecordsDistinct(fns);
    var s5;
    s5, c5, reg, t5 := NonrigidStep(fns, n, cs4, ct4, params, o);
    r := if s5.Ok? then Ok(()) else Err(s5.error);
  }

  /** Steps 4 and 5, on the records of the rigid phase; `k` of them return
      before an error. */
  method NonrigidPhase(fns: StepFunctions, ghost m1: RigidMade, ghost rg: Rigid, params: map<string, string>, o: Oracles)
      returns (r: Result<(), Error>, ghost m: Option<DeformedMade>, k: nat)
    requires fns.Valid() && RigidHolds(fns, m1, rg) && allocated(m1)
    modifies RunRecords(fns)[3], RunRecords(fns)[4]
    ensures RigidHolds(fns, m1, rg)
    ensures var spec := DeformedSpec(rg, params, o);
            && (r.Ok? <==> spec.Ok?)
            && (r.Err? ==> r.error == spec.error)
            && (r.Err? ==>
                  k == if NormalizeSpec(rg.refined.points, CloudKind, rg.normalized.target.points, CloudKind,
                                        "stddev", o.sqrt, o.euler).Err? then 0 else 1)
            && (r.Ok? ==>
                  m.Some? && DeformedHolds(fns, m.value, spec.value) && Separate(m1, m.value)
                  && fresh(m.value.ts) && fresh(m.value.tt) && fresh(m.value.t5))
  {
    m, k := None, 0;
    RunRecordsDistinct(fns);
    ghost var n := NormalizeSpec(rg.refined.points, CloudKind, rg.normalized.target.points, CloudKind, "stddev", o.sqrt, o.euler);
    var s4, cs4, ct4, ts4, tt4 := NormalizeNonrigidStep(fns, RunRecords(fns)[2], m1.c3, RunRecords(fns)[0], m1.ct, o);
    if s4.Err? {
      return Err(s4.error), None, 0;
    }
    var s5, c5, reg, t5 := DeformPair(fns, s4.value, cs4, ct4, ts4, tt4, n.value, params, o);
    if s5.Err? {
      return Err(s5.error), None, 1;
    }
    m := Some(DeformedMade(cs4, ct4, ts4, tt4, c5, reg, t5));
    r := Ok(());
  }

  /** Steps 6 and 7, on the records of both earlier phases; `k` of them
      return before an error. On success every step's record reports the
      transform `Reported` lists, with the parameters and final states the
      run specification gives. */
  method RestorePhase(fns: StepFunctions, ghost m1: RigidMade, ghost rg: Rigid, ghost m2: DeformedMade, ghost df: Deformed)
      returns (r: Result<(), Error>, ghost c7: PointCloud?, k: nat)
    requires fns.Valid() && RigidHolds(fns, m1, rg) && DeformedHolds(fns, m2, df) && Separate(m1, m2)
    modifies RunRecords(fns)[5], RunRecords(fns)[6], m1.tt, m2.tt
    ensures var spec := RestoredSpec(rg, df);
            var t4 := df.normalized.target;
            var pts := df.deformed.source.points;
            && (r.Ok? <==> spec.Ok?)
            && (r.Err? ==> r.error == spec.error)
            && (r.Err? ==> k == if DenormalizeSpec(t4.params, t4.cache, pts, CloudKind, pts, CloudKind).Err? then 0 else 1)
            && (r.Ok? ==>
                  var rec := RunRecord(rg, df, spec.value);
                  Reports(fns, Reported(m1, m2), RunPlan(rec), RunStates(rec))
                  && c7 != null && RunRecords(fns)[6].output.Some?
                  && RunRecords(fns)[6].output.value.source == Cloud(c7) && c7.points == Registered(rec))
  {
    c7, k := null, 0;
    RunRecordsDistinct(fns);
    var s6, c6, c6t := DenormalizeStep(fns, 5, RunRecords(fns)[4], m2.c5, RunRecords(fns)[3], m2.tt);
    if s6.Err? {
      return Err(s6.error), null, 0;
    }
    var s7, c, ct := DenormalizeStep(fns, 6, s6.value, c6, RunRecords(fns)[0], m1.tt);
    if s7.Err? {
      return Err(s7.error), null, 1;
    }
    c7 := c;
    ReportsAssembled(fns, m1, m2, RunRecord(rg, df, RestoredSpec(rg, df).value));
    r := Ok(());
  }

  /** Steps 4 to 7, after a successful rigid phase: `n` steps of the run
      return before an error, as `Completed` counts. On success every
      record reports its transform in `Reported(m1, m)`, with the
      parameters and final states of the run specification, and the last
      record's source cloud holds the registered points. */
  method LaterPhases(fns: StepFunctions, ghost m1: RigidMade, ghost rg: Rigid, params: map<string, string>, o: Oracles)
      returns (r: Result<(), Error>, n: nat, ghost m: Option<DeformedMade>, ghost c7: PointCloud?)
    requires fns.Valid() && RigidHolds(fns, m1, rg) && allocated(m1)
    modifies RunRecords(fns)[3], RunRecords(fns)[4], RunRecords(fns)[5], RunRecords(fns)[6], m1.tt
    ensures var later := LaterSpec(rg, params, o);
            && (r.Ok? <==> later.Ok?)
            && (r.Err? ==> r.error == later.error)
            && n == LaterDone(rg, params, o)
            && (r.Ok? ==>
                  var rec := RunRecord(rg, later.value.0, later.value.1);
                  m.Some? && fresh(m.value.ts) && fresh(m.value.tt) && fresh(m.value.t5)
                  && Reports(fns, Reported(m1, m.value), RunPlan(rec), RunStates(rec))
                  && c7 != null && RunRecords(fns)[6].output.Some?
                  && RunRecords(fns)[6].output.value.source == Cloud(c7) && c7.points == Registered(rec))
  {
    m, c7 := None, null;
    var r2, m2, k2 := NonrigidPhase(fns, m1, rg, params, o);
    if r2.Err? {
      return Err(r2.error), 3 + k2, None, null;
    }
    ghost var df := DeformedSpec(rg, params, o).value;
    var r3, c, k3 := RestorePhase(fns, m1, rg, m2.value, df);
    if r3.Err? {
      return Err(r3.error), 5 + k3, None, null;
    }
    m, c7 := m2, c;
    r, n := Ok(()), |StepNames|;
  }

  /** The seven steps of `run` in order, stopping at the first error:
      `n` of them return before it, as `Completed` counts. On success every
      record reports its transform `ts[k]`, with the parameters and final
      states of the run specification, and the last record's source cloud
      holds the registered points. */
  method RunPhases(fns: StepFunctions, source: Organ, target: Organ, config: RigidConfig,
                   params: map<string, string>, o: Oracles)
      returns (r: Result<(), Error>, n: nat, ghost ts: seq<Transform>, ghost c7: PointCloud?)
    requires fns.Valid()
    modifies RunRecords(fns)
    ensures var spec := RunSpec(old(source.mesh.vertices), old(target.mesh.vertices), config, params, o);
            && (r.Ok? <==> spec.Ok?)
            && (r.Err? ==> r.error == spec.error)
            && n == Completed(old(source.mesh.vertices), old(target.mesh.vertices), config, params, o)
            && (r.Ok? ==>
                  Reports(fns, ts, RunPlan(spec.value), RunStates(spec.value))
                  && (source.targetTransform.Some? ==> Excludes(ts, source.targetTransform.value))
                  && (target.targetTransform.Some? ==> Excludes(ts, target.targetTransform.value))
                  && c7 != null && RunRecords(fns)[6].output.Some?
                  && RunRecords(fns)[6].output.value.source == Cloud(c7) && c7.points == Registered(spec.value))
  {
    ts, c7 := [], null;
    ghost var src, tgt := source.mesh.vertices, target.mesh.vertices;
    var r1, m1 := RigidPhase(fns, source, target, config, o);
    if r1.Err? {
      RunRigidFails(src, tgt, config, params, o);
      return Err(r1.error), 0, [], null;
    }
    ghost var rg := RigidSpec(src, tgt, config, o).value;
    var r2, n2, m2, c := LaterPhases(fns, m1.value, rg, params, o);
    RunAfterRigid(src, tgt, config, params, o, rg, r2, n2);
    if r2.Err? {
      return r2, n2, [], null;
    }
    ts, c7, r, n := Reported(m1.value, m2.value), c, r2, n2;
    if source.targetTransform.Some? {
      ReportedExcludes(m1.value, m2.value, source.targetTransform.value);
    }
    if target.targetTransform.Some? {
      ReportedExcludes(m1.value, m2.value, target.targetTransform.value);
    }
  }

  /** The projection `run` returns: the registered cloud `g` as a new mesh
      with the source organ's faces, and the `'Source'` transforms `ts`
      under their names. */
  method Project(id: string, description: string, source: Organ, target: Organ,
                 transformations: seq<(string, Transform)>, ghost ts: seq<Transform>,
                 ghost ps: seq<Params>, ghost cs: seq<Cache>, g: Geometry,
                 ghost c7: PointCloud?, ghost points: seq<Vec3>)
      returns (p: Projection)
    requires Describes(ts, ps, cs) && |transformations| == |ts| == |StepNames|
    requires forall i :: 0 <= i < |ts| ==> transformations[i] == (StepNames[i], ts[i])
    requires source.targetTransform.Some? ==> Excludes(ts, source.targetTransform.value)
    requires target.targetTransform.Some? ==> Excludes(ts, target.targetTransform.value)
    requires c7 != null && g == Cloud(c7) && c7.points == points
    ensures fresh(p) && fresh(p.registration) && p.id == id && p.description == description
    ensures p.source == source.AsSubject() && p.target == target.AsSubject()
    ensures p.transformations == transformations && |p.transformations| == |StepNames|
    ensures forall i :: 0 <= i < |StepNames| ==> p.transformations[i].0 == StepNames[i]
    ensures p.Plan() == ps && p.States() == cs && p.Apart(p.source) && p.Apart(p.target)
    ensures p.registration.vertices == points
    ensures p.registration.faces == source.mesh.faces && !p.registration.process
  {
    var registration := ToMesh(g, source.mesh.faces, false);
    p := new Projection(id, description, source.AsSubject(), target.AsSubject(), transformations, registration.mesh);
    ProjectionReports(p, ts, ps, cs);
    ProjectionApart(p, ts, p.source);
    ProjectionApart(p, ts, p.target);
  }

  /** The two tuning hooks of a pipeline. */
  datatype Hook = HyperparameterSearch | Autotune

  /** Calling a tuning hook. Neither is declared with `self`, so calling it
      on a pipeline fails with `TypeError` before its body runs; called on
      the class it raises `NotImplementedError`. No call succeeds. */
  function CallHook(hook: Hook, onInstance: bool): (r: Result<(), Error>)
    ensures r.Err?
    ensures r.error == TypeError <==> onInstance
    ensures r.error == NotImplementedError <==> !onInstance
  {
    if onInstance then Err(TypeError) else Err(NotImplementedError)
  }

  /** The list `compute_metrics` checks membership in: one string, not
      three. */
  const MetricList: seq<string> := ["sinkhorn, chamfer, hausdorff"]

  /** The three metric names the error message offers. */
  const MetricNames: seq<string> := ["sinkhorn", "chamfer", "hausdorff"]

  /** `compute_metrics(metric)` as written: a name outside `MetricList` is a
      `ValueError`; the one string that passes then reads `self.result`,
      an attribute no pipeline has. */
  function ComputeMetrics(metric: string): (r: Result<(), Error>)
    ensures r.Err?
    ensures r.error.ValueError? <==> metric !in MetricList
    ensures r.error == AttributeError("result") <==> metric in MetricList
  {
    if metric !in MetricList then
      Err(ValueError(metric + " not recognized, must be one of sinkhorn, chamfer or hausdorff"))
    else Err(AttributeError("result"))
  }

  /** Each of the three metric names the message offers is rejected by the
      check as written. */
  lemma MetricNamesRejected(metric: string)
    requires metric in MetricNames
    ensures ComputeMetrics(metric).Err? && ComputeMetrics(metric).error.ValueError?
  {
    assert MetricNames[0] != MetricList[0] && MetricNames[1] != MetricList[0] && MetricNames[2] != MetricList[0];
  }

  /** The metrics the check evidently means to accept. */
  datatype Metric = Sinkhorn | Chamfer | Hausdorff

  function MetricName(m: Metric): string
  {
    match m
    case Sinkhorn => "sinkhorn"
    case Chamfer => "chamfer"
    case Hausdorff => "hausdorff"
  }

  /** The check as intended: a name is accepted exactly when it is one of
      the three metric names, and then stands for that metric. */
  function CheckMetric(metric: string): (r: Result<Metric, Error>)
    ensures r.Ok? <==> metric in MetricNames
    ensures r.Ok? ==> MetricName(r.value) == metric
    ensures r.Err? ==> r.error.ValueError?
  {
    if metric == "sinkhorn" then Ok(Sinkhorn)
    else if metric == "chamfer" then Ok(Chamfer)
    else if metric == "hausdorff" then Ok(Hausdorff)
    else Err(ValueError(metric + " not recognized, must be one of sinkhorn, chamfer or hausdorff"))
  }

  /** The intended check names every metric and accepts each one's name;
      the joined string it rejects. */
  lemma CheckMetricAccepts(m: Metric)
    ensures CheckMetric(MetricName(m)) == Ok(m)
    ensures CheckMetric(MetricList[0]).Err?
  {
  }


  /** `Pipeline`: the configuration read at construction, the step
      functions it runs, and `self.steps`, whose keys are kept in insertion
      order in `order`. Whatever run stored a key, the value is the shared
      record of that step's function. */
  class Pipeline {
    const id: string
    const name: string
    const description: string
    const rigid: RigidConfig
    const nonrigid: map<string, string>
    const fns: StepFunctions
    var steps: map<string, PipelineStep>
    var order: seq<string>

    ghost predicate Valid()
      reads this
    {
      KeysInOrder(order, steps.Keys) && fns.Valid()
      && forall k :: 0 <= k < |order| ==> steps[order[k]] == RunRecords(fns)[k]
    }

    /** `Pipeline(name, description, params)`: `id` stands for the random
        uuid and `rigid` and `nonrigid` for the two sections of the
        parameter file; no step has run. */
    constructor (id: string, name: string, description: string, rigid: RigidConfig,
                 nonrigid: map<string, string>, fns: StepFunctions)
      requires fns.Valid()
      ensures Valid()
      ensures this.id == id && this.name == name && this.description == description
      ensures this.rigid == rigid && this.nonrigid == nonrigid && this.fns == fns
      ensures steps == map[] && order == []
    {
      this.id := id;
      this.name := name;
      this.description := description;
      this.rigid := rigid;
      this.nonrigid := nonrigid;
      this.fns := fns;
      steps := map[];
      order := [];
    }

    /** `self.steps[StepNames[i]] = s` for the record step `i` returned,
        once every earlier step is stored: a new key goes to the end, an
        existing one keeps its place. */
    method Store(i: nat, s: PipelineStep)
      requires Valid() && i < |StepNames| && i <= |order| && s == RunRecords(fns)[i]
      modifies this
      ensures Valid() && i < |order|
      ensures steps == old(steps)[StepNames[i] := s]
      ensures order == if i < old(|order|) then old(order) else old(order) + [StepNames[i]]
    {
      StepNamesDistinct();
      var key := StepNames[i];
      if key !in steps {
        order := order + [key];
      }
      steps := steps[key := s];
    }

    /** The assignments `self.steps[StepNames[i]] = ...` of the first `n`
        steps, in step order. */
    method Commit(n: nat)
      requires Valid() && n <= |StepNames|
      modifies this
      ensures Valid()
      ensures |order| == if old(|order|) < n then n else old(|order|)
    {
      if n > 0 {
        Commit(n - 1);
        Store(n - 1, RunRecords(fns)[n - 1]);
      }
    }

    /** `Commit` of all seven steps, which leaves the records, their
        transforms and the registered cloud as they were. */
    method CommitAll(ghost ts: seq<Transform>, ghost ps: seq<Params>, ghost cs: seq<Cache>,
                     ghost c7: PointCloud?, ghost points: seq<Vec3>)
      requires Valid() && Reports(fns, ts, ps, cs)
      requires c7 != null && RunRecords(fns)[6].output.Some?
      requires RunRecords(fns)[6].output.value.source == Cloud(c7) && c7.points == points
      modifies this
      ensures Valid() && |order| == |StepNames|
      ensures |order| == if old(|order|) < |StepNames| then |StepNames| else old(|order|)
      ensures Reports(fns, ts, ps, cs)
      ensures c7 != null && RunRecords(fns)[6].output.Some?
      ensures RunRecords(fns)[6].output.value.source == Cloud(c7) && c7.points == points
    {
      Commit(|StepNames|);
      assert forall k :: 0 <= k < |StepNames| ==> unchanged(RunRecords(fns)[k]);
      assert forall k :: 0 <= k < |ts| ==> unchanged(ts[k]);
    }

    /** The stores of all seven steps: afterwards `self.steps` lists the
        records' `'Source'` transforms in step order. */
    method StoreAll(ghost ts: seq<Transform>, ghost ps: seq<Params>, ghost cs: seq<Cache>,
                    ghost c7: PointCloud?, ghost points: seq<Vec3>)
        returns (transformations: seq<(string, Transform)>, g: Geometry)
      requires Valid() && Reports(fns, ts, ps, cs)
      requires c7 != null && RunRecords(fns)[6].output.Some?
      requires RunRecords(fns)[6].output.value.source == Cloud(c7) && c7.points == points
      modifies this
      ensures Valid() && order == StepNames
      ensures |order| == if old(|order|) < |StepNames| then |StepNames| else old(|order|)
      ensures (forall k :: k in order ==> k in steps) && transformations == Listed(order, steps)
      ensures |transformations| == |ts| == |StepNames|
      ensures forall i :: 0 <= i < |ts| ==> transformations[i] == (StepNames[i], ts[i])
      ensures Describes(ts, ps, cs)
      ensures c7 != null && g == Cloud(c7) && c7.points == points
    {
      CommitAll(ts, ps, cs, c7, points);
      ListedReports(fns, order, steps, ts);
      transformations := Listed(order, steps);
      g := RunRecords(fns)[6].output.value.source;
    }

    /** The end of a successful `run`: all seven steps stored, then the
        projection built from the stored `'Source'` transforms and from the
        last step's source cloud. */
    method Assemble(source: Organ, target: Organ, ghost ts: seq<Transform>, ghost ps: seq<Params>,
                    ghost cs: seq<Cache>, ghost c7: PointCloud?, ghost points: seq<Vec3>)
        returns (p: Projection)
      requires Valid() && Reports(fns, ts, ps, cs)
      requires source.targetTransform.Some? ==> Excludes(ts, source.targetTransform.value)
      requires target.targetTransform.Some? ==> Excludes(ts, target.targetTransform.value)
      requires c7 != null && RunRecords(fns)[6].output.Some?
      requires RunRecords(fns)[6].output.value.source == Cloud(c7) && c7.points == points
      modifies this
      ensures Valid() && order == StepNames
      ensures |order| == if old(|order|) < |StepNames| then |StepNames| else old(|order|)
      ensures fresh(p) && fresh(p.registration) && p.id == id && p.description == description
      ensures p.source == source.AsSubject() && p.target == target.AsSubject()
      ensures |p.transformations| == |StepNames|
      ensures forall i :: 0 <= i < |StepNames| ==> p.transformations[i].0 == StepNames[i]
      ensures p.Plan() == ps && p.States() == cs && p.Apart(p.source) && p.Apart(p.target)
      ensures p.registration.vertices == points
      ensures p.registration.faces == source.mesh.faces && !p.registration.process
    {
      var transformations, g := StoreAll(ts, ps, cs, c7, points);
      p := Project(id, description, source, target, transformations, ts, ps, cs, g, c7, points);
    }

    /** `run`: the seven steps, then the projection: its registration is
        the twice-denormalised source as a new mesh with the source organ's
        faces, and its transformations list every stored step's `'Source'`
        transform. The outcome is `RunSpec` on the organs' vertices, errors
        included, and the steps that returned before an error stay stored. */
    method Run(source: Organ, target: Organ, o: Oracles) returns (r: Result<Projection, Error>)
      requires Valid()
      modifies this, RunRecords(fns)
      ensures Valid()
      ensures var spec := RunSpec(old(source.mesh.vertices), old(target.mesh.vertices), rigid, nonrigid, o);
              var done := Completed(old(source.mesh.vertices), old(target.mesh.vertices), rigid, nonrigid, o);
              && (r.Ok? <==> spec.Ok?)
              && (r.Err? ==> r.error == spec.error)
              && |order| == (if old(|order|) < done then done else old(|order|))
              && (r.Ok? ==>
                    var p := r.value;
                    fresh(p) && fresh(p.registration) && p.id == id && p.description == description
                    && p.source == source.AsSubject() && p.target == target.AsSubject()
                    && order == StepNames
                    && |p.transformations| == |StepNames|
                    && (forall i :: 0 <= i < |StepNames| ==> p.transformations[i].0 == StepNames[i])
                    && p.Plan() == RunPlan(spec.value) && p.States() == RunStates(spec.value)
                    && p.Apart(p.source) && p.Apart(p.target)
                    && p.registration.vertices == Registered(spec.value)
                    && p.registration.faces == source.mesh.faces && !p.registration.process)
    {
      ghost var src, tgt := source.mesh.vertices, target.mesh.vertices;
      var r0, n, ts, c7 := RunPhases(fns, source, target, rigid, nonrigid, o);
      if r0.Err? {
        Commit(n);
        return Err(r0.error);
      }
      ghost var rec := RunSpec(src, tgt, rigid, nonrigid, o).value;
      var p := Assemble(source, target, ts, RunPlan(rec), RunStates(rec), c7, Registered(rec));
      r := Ok(p);
    }
  }
}
