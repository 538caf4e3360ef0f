module Records {
  import opened Wrappers
  import opened Linalg
  import opened Geometry
  import opened Dataclass
  import opened Steps
  import opened Runs

  /** The record of a normalisation with its objects named: the two output
      clouds and the two transforms, as `pr` says. */
  ghost predicate PairMade(s: PipelineStep, cs: PointCloud?, ct: PointCloud?, ts: Transform?, tt: Transform?, pr: Pair)
    reads s, cs, ct, ts, tt
  {
    cs != null && ct != null && ts != null && tt != null && ts != tt
    && s.output == Some(Outputs(Cloud(cs), Some(Cloud(ct)), None))
    && s.transform == Some(Transforms(ts, Some(tt)))
    && cs.points == pr.source.points && ct.points == pr.target.points
    && Holds(ts, pr.source.params, pr.source.cache) && Holds(tt, pr.target.params, pr.target.cache)
  }

  /** The objects the rigid phase made: step 1's clouds and transforms,
      step 2's transform, step 3's cloud and transform. */
  datatype RigidMade = RigidMade(cs: PointCloud, ct: PointCloud, ts: Transform, tt: Transform,
                                 g: Transform, c3: PointCloud, t3: Transform)

  /** The objects the nonrigid phase made: step 4's clouds and transforms,
      step 5's cloud, BCPD's registered cloud and step 5's transform. */
  datatype DeformedMade = DeformedMade(cs: PointCloud, ct: PointCloud, ts: Transform, tt: Transform,
                                       c5: PointCloud, reg: PointCloud, t5: Transform)

  /** After the rigid phase: the records of steps 1 to 3 refer to `m`'s
      objects, which hold what `rg` says; the four transforms are distinct. */
  ghost predicate RigidHolds(fns: StepFunctions, m: RigidMade, rg: Rigid)
    reads RunRecords(fns)[0], RunRecords(fns)[1], RunRecords(fns)[2], m.cs, m.ct, m.ts, m.tt, m.g, m.c3, m.t3
  {
    PairMade(RunRecords(fns)[0], m.cs, m.ct, m.ts, m.tt, rg.normalized)
    && RunRecords(fns)[1].transform == Some(Transforms(m.g, None)) && Holds(m.g, rg.global, Unused)
    && RunRecords(fns)[2].output == Some(Outputs(Cloud(m.c3), None, None))
    && RunRecords(fns)[2].transform == Some(Transforms(m.t3, None))
    && m.c3.points == rg.refined.points && Holds(m.t3, rg.refined.params, rg.refined.cache)
    && m.g != m.ts && m.g != m.tt && m.t3 != m.ts && m.t3 != m.tt && m.t3 != m.g
  }

  /** After the nonrigid phase: the records of steps 4 and 5 refer to `m`'s
      objects, which hold what `df` says. */
  ghost predicate DeformedHolds(fns: StepFunctions, m: DeformedMade, df: Deformed)
    reads RunRecords(fns)[3], RunRecords(fns)[4], m.cs, m.ct, m.ts, m.tt, m.c5, m.reg, m.t5
  {
    PairMade(RunRecords(fns)[3], m.cs, m.ct, m.ts, m.tt, df.normalized)
    && RunRecords(fns)[4].output == Some(Outputs(Cloud(m.c5), None, Some(Cloud(m.reg))))
    && RunRecords(fns)[4].transform == Some(Transforms(m.t5, None))
    && m.c5.points == df.deformed.source.points && m.reg.points == df.deformed.registered
    && Holds(m.t5, df.deformed.source.params, df.deformed.source.cache)
    && m.t5 != m.ts && m.t5 != m.tt
  }

  /** The `'Source'` transform of every step's record is `ts[k]`. */
  ghost predicate Recorded(fns: StepFunctions, ts: seq<Transform>)
    reads RunRecords(fns)
  {
    |ts| == |StepNames|
    && forall k :: 0 <= k < |StepNames| ==>
         RunRecords(fns)[k].transform.Some? && RunRecords(fns)[k].transform.value.source == ts[k]
  }

  /** Transform `ts[k]` has the parameters `ps[k]` and the state `cs[k]`,
      and no two are the same. */
  ghost predicate Describes(ts: seq<Transform>, ps: seq<Params>, cs: seq<Cache>)
    reads ts
  {
    |ts| == |ps| == |cs|
    && (forall k :: 0 <= k < |ts| ==> ts[k].AsParams() == ps[k] && ts[k].State() == cs[k])
    && (forall k, l :: 0 <= k < l < |ts| ==> ts[k] != ts[l])
  }

  /** The `'Source'` transform of every step's record is `ts[k]`, in the
      state `cs[k]` with the parameters `ps[k]`, and no two are the same. */
  ghost predicate Reports(fns: StepFunctions, ts: seq<Transform>, ps: seq<Params>, cs: seq<Cache>)
    reads RunRecords(fns), ts
  {
    Recorded(fns, ts) && Describes(ts, ps, cs)
  }

  /** The transforms of the nonrigid phase are not those of the rigid
      phase. */
  predicate Separate(m1: RigidMade, m2: DeformedMade)
  {
    && m2.ts != m1.ts && m2.ts != m1.tt && m2.ts != m1.g && m2.ts != m1.t3
    && m2.tt != m1.ts && m2.tt != m1.tt && m2.tt != m1.g && m2.tt != m1.t3
    && m2.t5 != m1.ts && m2.t5 != m1.tt && m2.t5 != m1.g && m2.t5 != m1.t3
  }

  /** The `'Source'` transforms of the seven steps, in step order. */
  function Reported(m1: RigidMade, m2: DeformedMade): (ts: seq<Transform>)
    ensures |ts| == |StepNames|
  {
    [m1.ts, m1.g, m1.t3, m2.ts, m2.t5, m2.tt, m1.tt]
  }

  /** `t` is none of the transforms `ts`. */
  predicate Excludes(ts: seq<Transform>, t: Transform)
  {
    forall k :: 0 <= k < |ts| ==> ts[k] != t
  }

  /** A transform other than the seven of a run is not reported. */
  lemma ReportedExcludes(m1: RigidMade, m2: DeformedMade, t: Transform)
    requires t != m1.ts && t != m1.g && t != m1.t3 && t != m1.tt
    requires t != m2.ts && t != m2.t5 && t != m2.tt
    ensures Excludes(Reported(m1, m2), t)
  {
  }

  /** Each step's record reporting its transform, in the parameters and
      final state the run gives it, with no transform reported twice, is
      `Reports` for the whole run. */
  lemma ReportsAssembled(fns: StepFunctions, m1: RigidMade, m2: DeformedMade, rec: RunRecord)
    requires RunRecords(fns)[0].transform == Some(Transforms(m1.ts, Some(m1.tt)))
    requires RunRecords(fns)[1].transform == Some(Transforms(m1.g, None))
    requires RunRecords(fns)[2].transform == Some(Transforms(m1.t3, None))
    requires RunRecords(fns)[3].transform == Some(Transforms(m2.ts, Some(m2.tt)))
    requires RunRecords(fns)[4].transform == Some(Transforms(m2.t5, None))
    requires RunRecords(fns)[5].transform == Some(Transforms(m2.tt, Some(m2.tt)))
    requires RunRecords(fns)[6].transform == Some(Transforms(m1.tt, Some(m1.tt)))
    requires Holds(m1.ts, rec.rigid.normalized.source.params, rec.rigid.normalized.source.cache)
    requires Holds(m1.g, rec.rigid.global, Unused)
    requires Holds(m1.t3, rec.rigid.refined.params, rec.rigid.refined.cache)
    requires Holds(m2.ts, rec.deformed.normalized.source.params, rec.deformed.normalized.source.cache)
    requires Holds(m2.t5, rec.deformed.deformed.source.params, rec.deformed.deformed.source.cache)
    requires Holds(m2.tt, rec.deformed.normalized.target.params, rec.restored.nonrigid.cache)
    requires Holds(m1.tt, rec.rigid.normalized.target.params, rec.restored.rigid.cache)
    requires m1.ts != m1.tt && m1.g != m1.ts && m1.g != m1.tt && m1.t3 != m1.ts && m1.t3 != m1.tt && m1.t3 != m1.g
    requires m2.ts != m2.tt && m2.t5 != m2.ts && m2.t5 != m2.tt && Separate(m1, m2)
    ensures Reports(fns, Reported(m1, m2), RunPlan(rec), RunStates(rec))
  {
    var ps, cs := RunPlan(rec), RunStates(rec);
    assert ps == [rec.rigid.normalized.source.params, rec.rigid.global, rec.rigid.refined.params,
                  rec.deformed.normalized.source.params, rec.deformed.deformed.source.params,
                  rec.deformed.normalized.target.params, rec.rigid.normalized.target.params];
    assert cs == [rec.rigid.normalized.source.cache, Unused, rec.rigid.refined.cache,
                  rec.deformed.normalized.source.cache, rec.deformed.deformed.source.cache,
                  rec.restored.nonrigid.cache, rec.restored.rigid.cache];
  }

  /** Once all seven steps are stored in step order, the `'Source'`
      transforms listed from `self.steps` are the reported ones, each under
      its step's name. */
  lemma ListedReports(fns: StepFunctions, order: seq<string>, steps: map<string, PipelineStep>,
                      ts: seq<Transform>)
    requires Recorded(fns, ts)
    requires KeysInOrder(order, steps.Keys) && |order| == |StepNames|
    requires forall k :: 0 <= k < |order| ==> steps[order[k]] == RunRecords(fns)[k]
    ensures forall k :: k in order ==> k in steps
    ensures var l := Listed(order, steps);
            |l| == |StepNames| && forall i :: 0 <= i < |l| ==> l[i] == (StepNames[i], ts[i])
  {
    assert order == StepNames;
    ListedAll(order, steps);
  }

  /** A projection listing the reported transforms in step order has the
      run's parameters and states as its plan and states, and lists no
      transform twice. */
  lemma ProjectionReports(p: Projection, ts: seq<Transform>, ps: seq<Params>, cs: seq<Cache>)
    requires Describes(ts, ps, cs)
    requires |p.transformations| == |ts|
    requires forall i :: 0 <= i < |ts| ==> p.transformations[i].1 == ts[i]
    ensures p.Plan() == ps && p.States() == cs && p.Distinct()
  {
  }

  /** A subject whose target transform is none of the listed ones is apart
      from the projection. */
  lemma ProjectionApart(p: Projection, ts: seq<Transform>, s: Subject)
    requires p.Distinct()
    requires |p.transformations| == |ts|
    requires forall i :: 0 <= i < |ts| ==> p.transformations[i].1 == ts[i]
    requires TargetOf(s).Some? ==> Excludes(ts, TargetOf(s).value)
    ensures p.Apart(s)
  {
  }
}
