/** A run of the pipeline stated on coordinates and transform states: the
    three phases of `Pipeline.run`, what each leaves in the step records, and
    what the projection built from those records replays. */
module Runs {
  import opened Wrappers
  import opened Linalg
  import opened Geometry
  import opened Preprocess
  import opened Dataclass
  import opened Steps

  /** The rigid phase: rigid normalisation, the global step's inactive
      transform and the refined source. */
  datatype Rigid = Rigid(normalized: Pair, global: Params, refined: Applied)

  /** The nonrigid phase: nonrigid normalisation and the BCPD step. */
  datatype Deformed = Deformed(normalized: Pair, deformed: Nonrigid)

  /** The two denormalisations. */
  datatype Restored = Restored(nonrigid: Inverted, rigid: Inverted)

  datatype RunRecord = RunRecord(rigid: Rigid, deformed: Deformed, restored: Restored)

  /** Steps 1 to 3 on the coordinates `src` and `tgt` of the two organs'
      point clouds: normalisation by the unit scale, then the global step
      and the refine step, both on the normalised pair, the refine step
      seeded with the global step's matrix. */
  function RigidSpec(src: seq<Vec3>, tgt: seq<Vec3>, config: RigidConfig, o: Oracles): Result<Rigid, Error>
  {
    match NormalizeSpec(src, CloudKind, tgt, CloudKind, "unit", o.sqrt, o.euler)
    case Err(e) => Err(e)
    case Ok(n) =>
      var g := GlobalSpec(n.source.points, n.target.points, config, o.ransac);
      match RefineSpec(n.source.points, CloudKind, n.target.points, CloudKind, g.matrix, config, o.icp)
      case Err(e) => Err(e)
      case Ok(a) => Ok(Rigid(n, g, a))
  }

  /** Steps 4 and 5: normalisation by the standard deviation of the refined
      source and of the rigidly normalised target, then BCPD on the pair. */
  function DeformedSpec(rg: Rigid, params: map<string, string>, o: Oracles): Result<Deformed, Error>
  {
    match NormalizeSpec(rg.refined.points, CloudKind, rg.normalized.target.points, CloudKind, "stddev", o.sqrt, o.euler)
    case Err(e) => Err(e)
    case Ok(n) =>
      match NonrigidSpec(n.source.points, CloudKind, n.target.points, CloudKind, params, o.bcpd, o.euler)
      case Err(e) => Err(e)
      case Ok(d) => Ok(Deformed(n, d))
  }

  /** Steps 6 and 7: the deformed source, in both roles, is denormalised by
      the nonrigid normalisation's target transform, and the result, again
      in both roles, by the rigid normalisation's target transform. */
  function RestoredSpec(rg: Rigid, df: Deformed): Result<Restored, Error>
  {
    var t4 := df.normalized.target;
    var pts := df.deformed.source.points;
    match DenormalizeSpec(t4.params, t4.cache, pts, CloudKind, pts, CloudKind)
    case Err(e) => Err(e)
    case Ok(i6) =>
      var t1 := rg.normalized.target;
      match DenormalizeSpec(t1.params, t1.cache, i6.source, CloudKind, i6.source, CloudKind)
      case Err(e) => Err(e)
      case Ok(i7) => Ok(Restored(i6, i7))
  }

  /** Steps 4 to 7, once the rigid phase has succeeded: the nonrigid phase,
      then the two denormalisations, the first error ending the run. */
  function LaterSpec(rg: Rigid, params: map<string, string>, o: Oracles): Result<(Deformed, Restored), Error>
  {
    match DeformedSpec(rg, params, o)
    case Err(e) => Err(e)
    case Ok(df) =>
      match RestoredSpec(rg, df)
      case Err(e) => Err(e)
      case Ok(rs) => Ok((df, rs))
  }

  /** `Pipeline.run` on coordinates: the three phases, the first error
      ending the run. */
  function RunSpec(src: seq<Vec3>, tgt: seq<Vec3>, config: RigidConfig, params: map<string, string>,
                   o: Oracles): Result<RunRecord, Error>
  {
    match RigidSpec(src, tgt, config, o)
    case Err(e) => Err(e)
    case Ok(rg) =>
      match LaterSpec(rg, params, o)
      case Err(e) => Err(e)
      case Ok(later) => Ok(RunRecord(rg, later.0, later.1))
  }

  /** The keys of `self.steps`, in the order the run inserts them. */
  const StepNames: seq<string> := ["normalize_rigid", "global_registration", "refine_registration",
    "normalize_nonrigid", "nonrigid_registration", "denormalize_nonrigid", "denormalize_rigid"]

  /** The parameters of the `'Source'` transform of each step, in step
      order: the denormalisation steps report the normalisations' `'Target'`
      transforms. */
  function RunPlan(rec: RunRecord): (ps: seq<Params>)
    ensures |ps| == |StepNames|
  {
    RigidPlan(rec.rigid) + DeformedPlan(rec.deformed) + RestoredPlan(rec.rigid, rec.deformed)
  }

  /** The states those transforms are left in by the run. */
  function RunStates(rec: RunRecord): (cs: seq<Cache>)
    ensures |cs| == |StepNames|
  {
    RigidStates(rec.rigid) + DeformedStates(rec.deformed) + RestoredStates(rec.restored)
  }

  function RigidPlan(rg: Rigid): seq<Params>
  {
    [rg.normalized.source.params, rg.global, rg.refined.params]
  }

  function RigidStates(rg: Rigid): seq<Cache>
  {
    [rg.normalized.source.cache, Unused, rg.refined.cache]
  }

  function DeformedPlan(df: Deformed): seq<Params>
  {
    [df.normalized.source.params, df.deformed.source.params]
  }

  function DeformedStates(df: Deformed): seq<Cache>
  {
    [df.normalized.source.cache, df.deformed.source.cache]
  }

  function RestoredPlan(rg: Rigid, df: Deformed): seq<Params>
  {
    [df.normalized.target.params, rg.normalized.target.params]
  }

  function RestoredStates(rs: Restored): seq<Cache>
  {
    [rs.nonrigid.cache, rs.rigid.cache]
  }

  /** The coordinates of the registration: the source after the last step. */
  function Registered(rec: RunRecord): seq<Vec3>
  {
    rec.restored.rigid.source
  }

  /** Replaying a prefix that reproduced the states so far, through one more
      entry whose step reproduces its own state, reproduces one more state. */
  lemma ReplayExtends(ps: seq<Params>, cs: seq<Cache>, pts: seq<Vec3>, i: nat, a: seq<Vec3>, b: seq<Vec3>)
    requires |ps| == |cs| && i < |ps|
    requires Replay(ps[..i], cs[..i], pts) == Replayed(cs[..i], Ok(a))
    requires StepSpec(ps[i], cs[i], a) == Outcome(cs[i], Ok(b))
    ensures Replay(ps[..i + 1], cs[..i + 1], pts) == Replayed(cs[..i + 1], Ok(b))
  {
    ReplayNext(ps, cs, pts, i, Replay(ps[..i], cs[..i], pts));
    assert cs[..i] + [cs[i]] == cs[..i + 1];
  }

  /** A replay of two entries, each of which reproduces its result and
      state, reproduces both. */
  lemma TwoEntries(ps: seq<Params>, cs: seq<Cache>, pts: seq<Vec3>, a: seq<Vec3>, b: seq<Vec3>)
    requires |ps| == |cs| == 2
    requires StepSpec(ps[0], cs[0], pts) == Outcome(cs[0], Ok(a))
    requires StepSpec(ps[1], cs[1], a) == Outcome(cs[1], Ok(b))
    ensures Replay(ps, cs, pts) == Replayed(cs, Ok(b))
  {
    assert ps[..0] == [] && cs[..0] == [];
    ReplayExtends(ps, cs, pts, 0, pts, a);
    ReplayExtends(ps, cs, pts, 1, a, b);
    assert ps[..2] == ps && cs[..2] == cs;
  }

  /** A transform that was called once, from a state without an inverse,
      is called forward again by the replay, with the same result and state. */
  lemma ForwardEntry(p: Params, c: Cache, pts: seq<Vec3>, center: bool)
    requires p.apply && c.inverse.None?
    requires CallSpec(p, c, pts, CloudKind, center).result.Ok?
    ensures var o := CallSpec(p, c, pts, CloudKind, center);
            StepSpec(p, o.cache, pts) == o
  {
    CallKeepsInverse(p, c, pts, CloudKind, center);
    CallRepeat(p, c, pts, CloudKind, center);
  }

  /** The source transform of a normalisation, in the state the
      normalisation left it in, is called forward again by the replay with
      the same result. */
  lemma NormalizedEntry(src: seq<Vec3>, tgt: seq<Vec3>, name: string, sqrt: real -> real, euler: (string, Vec3) -> Mat3)
    requires NormalizeSpec(src, CloudKind, tgt, CloudKind, name, sqrt, euler).Ok?
    ensures var s := NormalizeSpec(src, CloudKind, tgt, CloudKind, name, sqrt, euler).value.source;
            StepSpec(s.params, s.cache, src) == Outcome(s.cache, Ok(s.points))
  {
    ForwardEntry(ScaleParams(ScaleFactor(src, name, sqrt).value, euler), Unused, src, true);
  }

  /** A denormalisation inverts the same coordinates twice; the second
      inversion repeats the first, so the recorded state is that of one
      inversion, and the replay inverts again with the same result. */
  lemma InverseEntry(p: Params, c: Cache, pts: seq<Vec3>)
    requires p.apply
    requires DenormalizeSpec(p, c, pts, CloudKind, pts, CloudKind).Ok?
    ensures var d := DenormalizeSpec(p, c, pts, CloudKind, pts, CloudKind).value;
            StepSpec(p, d.cache, pts) == Outcome(d.cache, Ok(d.source)) && d.target == d.source
  {
    InvertRepeat(p, c, pts, CloudKind);
  }

  /** The BCPD step's transform, as the replay meets it: called forward
      again on the normalised source, it reproduces the deformed source and
      its own state. */
  lemma DeformedEntry(src: seq<Vec3>, tgt: seq<Vec3>, params: map<string, string>,
                      bcpd: (seq<string>, seq<Vec3>, seq<Vec3>) -> BcpdResult, euler: (string, Vec3) -> Mat3)
    requires NonrigidSpec(src, CloudKind, tgt, CloudKind, params, bcpd, euler).Ok?
    ensures var n := NonrigidSpec(src, CloudKind, tgt, CloudKind, params, bcpd, euler).value;
            StepSpec(n.source.params, n.source.cache, src) == Outcome(n.source.cache, Ok(n.source.points))
  {
    var out := bcpd(BcpdArgs(params).value, src, tgt);
    var down := "downsampling" in params;
    var dvf := Difference(out.u, if down then out.normY else src).value;
    var p := DeformParams(out, dvf, euler);
    var proxy := if down then Some(out.normY) else None;
    var first := if proxy.Some? then CallSpec(p, Unused, proxy.value, ArrayKind, false) else Outcome(Unused, Ok([]));
    if proxy.Some? {
      CallKeepsInverse(p, Unused, proxy.value, ArrayKind, false);
    }
    ForwardEntry(p, first.cache, src, false);
  }

  /** The replay of the rigid phase's transforms reproduces that phase. */
  lemma RigidReplay(src: seq<Vec3>, tgt: seq<Vec3>, config: RigidConfig, o: Oracles)
    requires RigidSpec(src, tgt, config, o).Ok?
    ensures var rg := RigidSpec(src, tgt, config, o).value;
            Replay(RigidPlan(rg), RigidStates(rg), src) == Replayed(RigidStates(rg), Ok(rg.refined.points))
  {
    var rg := RigidSpec(src, tgt, config, o).value;
    var ps, cs := RigidPlan(rg), RigidStates(rg);
    var a1 := rg.normalized.source.points;
    assert ps[..0] == [] && cs[..0] == [];
    ForwardEntry(ps[0], Unused, src, true);
    ReplayExtends(ps, cs, src, 0, src, a1);
    ReplayExtends(ps, cs, src, 1, a1, a1);
    ForwardEntry(ps[2], Unused, a1, false);
    ReplayExtends(ps, cs, src, 2, a1, rg.refined.points);
    assert ps[..3] == ps && cs[..3] == cs;
  }

  /** The replay of the nonrigid phase's transforms reproduces that phase. */
  lemma DeformedReplay(rg: Rigid, params: map<string, string>, o: Oracles)
    requires DeformedSpec(rg, params, o).Ok?
    ensures var df := DeformedSpec(rg, params, o).value;
            Replay(DeformedPlan(df), DeformedStates(df), rg.refined.points)
            == Replayed(DeformedStates(df), Ok(df.deformed.source.points))
  {
    var df := DeformedSpec(rg, params, o).value;
    var ps, cs := DeformedPlan(df), DeformedStates(df);
    var a3, a4 := rg.refined.points, df.normalized.source.points;
    NormalizedEntry(a3, rg.normalized.target.points, "stddev", o.sqrt, o.euler);
    DeformedEntry(a4, df.normalized.target.points, params, o.bcpd, o.euler);
    TwoEntries(ps, cs, a3, a4, df.deformed.source.points);
  }

  /** The replay of the two normalisations' target transforms, in the
      states the denormalisations left them in, reproduces the
      denormalisations. */
  lemma RestoredReplay(rg: Rigid, df: Deformed)
    requires df.normalized.target.params.apply && rg.normalized.target.params.apply
    requires RestoredSpec(rg, df).Ok?
    ensures var rs := RestoredSpec(rg, df).value;
            Replay(RestoredPlan(rg, df), RestoredStates(rs), df.deformed.source.points)
            == Replayed(RestoredStates(rs), Ok(rs.rigid.source))
  {
    var rs := RestoredSpec(rg, df).value;
    var ps, cs := RestoredPlan(rg, df), RestoredStates(rs);
    var a5 := df.deformed.source.points;
    InverseEntry(ps[0], df.normalized.target.cache, a5);
    InverseEntry(ps[1], rg.normalized.target.cache, rs.nonrigid.source);
    TwoEntries(ps, cs, a5, rs.nonrigid.source, rs.rigid.source);
  }

  /** The projection replays the run: its list of transforms, in the states
      the run left them in, carries the source organ's coordinates through
      every step to exactly the registration, and leaves every state as the
      run left it. */
  lemma ReplayReproducesRun(src: seq<Vec3>, tgt: seq<Vec3>, config: RigidConfig,
                            params: map<string, string>, o: Oracles)
    requires RunSpec(src, tgt, config, params, o).Ok?
    ensures var rec := RunSpec(src, tgt, config, params, o).value;
            Replay(RunPlan(rec), RunStates(rec), src) == Replayed(RunStates(rec), Ok(Registered(rec)))
  {
    var rec := RunSpec(src, tgt, config, params, o).value;
    var rg, df, rs := rec.rigid, rec.deformed, rec.restored;
    RunParts(src, tgt, config, params, o);
    RigidSettled(src, tgt, config, o);
    DeformedSettled(rg, params, o);
    RigidReplay(src, tgt, config, o);
    DeformedReplay(rg, params, o);
    RestoredReplay(rg, df);
    ThreeParts(RigidPlan(rg), RigidStates(rg), DeformedPlan(df), DeformedStates(df),
               RestoredPlan(rg, df), RestoredStates(rs), src,
               rg.refined.points, df.deformed.source.points, Registered(rec));
  }

  /** A successful run is its three phases, each successful. */
  lemma RunParts(src: seq<Vec3>, tgt: seq<Vec3>, config: RigidConfig, params: map<string, string>, o: Oracles)
    requires RunSpec(src, tgt, config, params, o).Ok?
    ensures var rec := RunSpec(src, tgt, config, params, o).value;
            RigidSpec(src, tgt, config, o) == Ok(rec.rigid)
            && DeformedSpec(rec.rigid, params, o) == Ok(rec.deformed)
            && RestoredSpec(rec.rigid, rec.deformed) == Ok(rec.restored)
  {
  }

  /** Three lists that each replay cleanly from where the previous one
      ended replay cleanly one after the other. */
  lemma ThreeParts(ps1: seq<Params>, cs1: seq<Cache>, ps2: seq<Params>, cs2: seq<Cache>,
                   ps3: seq<Params>, cs3: seq<Cache>, pts: seq<Vec3>, a: seq<Vec3>, b: seq<Vec3>, c: seq<Vec3>)
    requires |ps1| == |cs1| && |ps2| == |cs2| && |ps3| == |cs3|
    requires Replay(ps1, cs1, pts) == Replayed(cs1, Ok(a))
    requires Replay(ps2, cs2, a) == Replayed(cs2, Ok(b))
    requires Replay(ps3, cs3, b) == Replayed(cs3, Ok(c))
    ensures Replay(ps1 + ps2 + ps3, cs1 + cs2 + cs3, pts) == Replayed(cs1 + cs2 + cs3, Ok(c))
  {
    ReplayComposes(ps1, cs1, ps2, cs2, pts);
    ReplayComposes(ps1 + ps2, cs1 + cs2, ps3, cs3, pts);
  }

  /** A scale transform that was called once, from a fresh state, is valid
      and without a DVF; so is it after any number of inversions. */
  lemma ScaleSettled(k: real, euler: (string, Vec3) -> Mat3, pts: seq<Vec3>, center: bool)
    ensures var p := ScaleParams(k, euler);
            Settled(p, CallSpec(p, Unused, pts, CloudKind, center).cache)
  {
    CallKeepsValid(ScaleParams(k, euler), Unused, pts, CloudKind, center);
  }

  /** Each normalisation leaves both of its transforms settled. */
  lemma NormalizeSettled(src: seq<Vec3>, tgt: seq<Vec3>, name: string, sqrt: real -> real,
                         euler: (string, Vec3) -> Mat3)
    requires NormalizeSpec(src, CloudKind, tgt, CloudKind, name, sqrt, euler).Ok?
    ensures var n := NormalizeSpec(src, CloudKind, tgt, CloudKind, name, sqrt, euler).value;
            Settled(n.source.params, n.source.cache) && Settled(n.target.params, n.target.cache)
            && n.source.params.apply && n.target.params.apply
  {
    ScaleSettled(ScaleFactor(src, name, sqrt).value, euler, src, true);
    ScaleSettled(ScaleFactor(tgt, name, sqrt).value, euler, tgt, true);
  }

  /** The BCPD step leaves its transform settled: valid, with its
      interpolator built. */
  lemma NonrigidSettled(src: seq<Vec3>, tgt: seq<Vec3>, params: map<string, string>,
                        bcpd: (seq<string>, seq<Vec3>, seq<Vec3>) -> BcpdResult, euler: (string, Vec3) -> Mat3)
    requires NonrigidSpec(src, CloudKind, tgt, CloudKind, params, bcpd, euler).Ok?
    ensures var n := NonrigidSpec(src, CloudKind, tgt, CloudKind, params, bcpd, euler).value;
            Settled(n.source.params, n.source.cache)
  {
    var out := bcpd(BcpdArgs(params).value, src, tgt);
    var down := "downsampling" in params;
    var dvf := Difference(out.u, if down then out.normY else src).value;
    var p := DeformParams(out, dvf, euler);
    var first := if down then CallSpec(p, Unused, out.normY, ArrayKind, false) else Outcome(Unused, Ok([]));
    if down {
      CallKeepsValid(p, Unused, out.normY, ArrayKind, false);
    }
    CallKeepsValid(p, first.cache, src, CloudKind, false);
    NonrigidNodes(src, tgt, params, bcpd, euler);
  }

  /** A denormalisation keeps its transform settled. */
  lemma DenormalizeSettled(p: Params, c: Cache, pts: seq<Vec3>)
    requires Settled(p, c) && DenormalizeSpec(p, c, pts, CloudKind, pts, CloudKind).Ok?
    ensures Settled(p, DenormalizeSpec(p, c, pts, CloudKind, pts, CloudKind).value.cache)
  {
    InvertKeepsValid(p, c, pts, CloudKind);
    InvertKeepsValid(p, InvertSpec(p, c, pts, CloudKind).cache, pts, CloudKind);
  }

  /** Every entry of a list of transforms is settled. */
  predicate AllSettled(ps: seq<Params>, cs: seq<Cache>)
  {
    |ps| == |cs| && forall i :: 0 <= i < |ps| ==> Settled(ps[i], cs[i])
  }

  /** The rigid phase leaves its transforms settled, the rigid normalisation's
      target transform included. */
  lemma RigidSettled(src: seq<Vec3>, tgt: seq<Vec3>, config: RigidConfig, o: Oracles)
    requires RigidSpec(src, tgt, config, o).Ok?
    ensures var rg := RigidSpec(src, tgt, config, o).value;
            AllSettled(RigidPlan(rg), RigidStates(rg))
            && Settled(rg.normalized.target.params, rg.normalized.target.cache) && rg.normalized.target.params.apply
  {
    var rg := RigidSpec(src, tgt, config, o).value;
    NormalizeSettled(src, tgt, "unit", o.sqrt, o.euler);
    CallKeepsValid(rg.refined.params, Unused, rg.normalized.source.points, CloudKind, false);
  }

  /** The nonrigid phase leaves its transforms settled, the nonrigid
      normalisation's target transform included. */
  lemma DeformedSettled(rg: Rigid, params: map<string, string>, o: Oracles)
    requires DeformedSpec(rg, params, o).Ok?
    ensures var df := DeformedSpec(rg, params, o).value;
            AllSettled(DeformedPlan(df), DeformedStates(df))
            && Settled(df.normalized.target.params, df.normalized.target.cache) && df.normalized.target.params.apply
  {
    var df := DeformedSpec(rg, params, o).value;
    NormalizeSettled(rg.refined.points, rg.normalized.target.points, "stddev", o.sqrt, o.euler);
    NonrigidSettled(df.normalized.source.points, df.normalized.target.points, params, o.bcpd, o.euler);
  }

  /** The denormalisations keep the two target transforms settled. */
  lemma RestoredSettled(rg: Rigid, df: Deformed)
    requires Settled(rg.normalized.target.params, rg.normalized.target.cache)
    requires Settled(df.normalized.target.params, df.normalized.target.cache)
    requires RestoredSpec(rg, df).Ok?
    ensures AllSettled(RestoredPlan(rg, df), RestoredStates(RestoredSpec(rg, df).value))
  {
    var rs := RestoredSpec(rg, df).value;
    DenormalizeSettled(df.normalized.target.params, df.normalized.target.cache, df.deformed.source.points);
    DenormalizeSettled(rg.normalized.target.params, rg.normalized.target.cache, rs.nonrigid.source);
  }

  lemma AllSettledConcat(ps1: seq<Params>, cs1: seq<Cache>, ps2: seq<Params>, cs2: seq<Cache>)
    requires AllSettled(ps1, cs1) && AllSettled(ps2, cs2)
    ensures AllSettled(ps1 + ps2, cs1 + cs2)
  {
    forall i | 0 <= i < |ps1 + ps2|
      ensures Settled((ps1 + ps2)[i], (cs1 + cs2)[i])
    {
      if i >= |ps1| {
        assert (ps1 + ps2)[i] == ps2[i - |ps1|] && (cs1 + cs2)[i] == cs2[i - |ps1|];
      }
    }
  }

  /** A run leaves every listed transform settled. */
  lemma RunSettled(src: seq<Vec3>, tgt: seq<Vec3>, config: RigidConfig, params: map<string, string>, o: Oracles)
    requires RunSpec(src, tgt, config, params, o).Ok?
    ensures var rec := RunSpec(src, tgt, config, params, o).value;
            AllSettled(RunPlan(rec), RunStates(rec))
  {
    var rec := RunSpec(src, tgt, config, params, o).value;
    var rg, df := rec.rigid, rec.deformed;
    RigidSettled(src, tgt, config, o);
    DeformedSettled(rg, params, o);
    RestoredSettled(rg, df);
    AllSettledConcat(RigidPlan(rg), RigidStates(rg), DeformedPlan(df), DeformedStates(df));
    AllSettledConcat(RigidPlan(rg) + DeformedPlan(df), RigidStates(rg) + DeformedStates(df),
                     RestoredPlan(rg, df), RestoredStates(rec.restored));
  }

  /** Projecting anything through a run's transforms leaves their states as
      the run left them: every projection made from one run sees the same
      transforms, whatever was projected before it. */
  lemma ProjectionKeepsStates(src: seq<Vec3>, tgt: seq<Vec3>, config: RigidConfig,
                              params: map<string, string>, o: Oracles, pts: seq<Vec3>)
    requires RunSpec(src, tgt, config, params, o).Ok?
    ensures var rec := RunSpec(src, tgt, config, params, o).value;
            Replay(RunPlan(rec), RunStates(rec), pts).caches == RunStates(rec)
  {
    RunSettled(src, tgt, config, params, o);
    var rec := RunSpec(src, tgt, config, params, o).value;
    ReplaySettled(RunPlan(rec), RunStates(rec), pts);
  }

  /** The names of the steps are distinct. */
  lemma StepNamesDistinct()
    ensures forall i, j :: 0 <= i < j < |StepNames| ==> StepNames[i] != StepNames[j]
  {
  }

  /** `self.steps` as a dictionary keeps its keys in insertion order; the
      run only ever inserts the step names in their fixed order, so the keys
      are always a prefix of that order. */
  predicate KeysInOrder(order: seq<string>, keys: set<string>)
  {
    |order| <= |StepNames| && order == StepNames[..|order|] && keys == set k | k in order
  }

  /** How many of the seven steps return once the rigid phase has
      succeeded: an error ends the run at the step that raises it, and
      step 6 fails only on its first denormalisation. */
  function LaterDone(rg: Rigid, params: map<string, string>, o: Oracles): (n: nat)
    ensures 3 <= n <= |StepNames|
    ensures n == |StepNames| <==> LaterSpec(rg, params, o).Ok?
  {
    if NormalizeSpec(rg.refined.points, CloudKind, rg.normalized.target.points, CloudKind, "stddev", o.sqrt, o.euler).Err? then 3
    else
      match DeformedSpec(rg, params, o)
      case Err(_) => 4
      case Ok(df) =>
        var t4 := df.normalized.target;
        var pts := df.deformed.source.points;
        if DenormalizeSpec(t4.params, t4.cache, pts, CloudKind, pts, CloudKind).Err? then 5
        else if RestoredSpec(rg, df).Err? then 6
        else 7
  }

  /** How many of the seven steps return on these coordinates: an error
      ends the run at the step that raises it. Only steps 1, 4, 5, 6 and 7
      can fail. */
  function Completed(src: seq<Vec3>, tgt: seq<Vec3>, config: RigidConfig, params: map<string, string>,
                     o: Oracles): (n: nat)
    ensures n <= |StepNames|
    ensures n == |StepNames| <==> RunSpec(src, tgt, config, params, o).Ok?
    ensures n in {0, 3, 4, 5, 6, 7}
  {
    match RigidSpec(src, tgt, config, o)
    case Err(_) => 0
    case Ok(rg) => LaterDone(rg, params, o)
  }

  /** A failing rigid phase ends the run with its error, before any step
      has returned. */
  lemma RunRigidFails(src: seq<Vec3>, tgt: seq<Vec3>, config: RigidConfig, params: map<string, string>, o: Oracles)
    requires RigidSpec(src, tgt, config, o).Err?
    ensures RunSpec(src, tgt, config, params, o) == Err(RigidSpec(src, tgt, config, o).error)
    ensures Completed(src, tgt, config, params, o) == 0
  {
  }

  /** An outcome of steps 4 to 7 after a successful rigid phase is the
      outcome of the whole run. */
  lemma RunAfterRigid(src: seq<Vec3>, tgt: seq<Vec3>, config: RigidConfig, params: map<string, string>,
                      o: Oracles, rg: Rigid, r: Result<(), Error>, n: nat)
    requires RigidSpec(src, tgt, config, o).Ok? && rg == RigidSpec(src, tgt, config, o).value
    requires var later := LaterSpec(rg, params, o);
             && (r.Ok? <==> later.Ok?) && (r.Err? ==> r.error == later.error) && n == LaterDone(rg, params, o)
    ensures var spec := RunSpec(src, tgt, config, params, o);
            && (r.Ok? <==> spec.Ok?) && (r.Err? ==> r.error == spec.error)
            && n == Completed(src, tgt, config, params, o)
            && (r.Ok? ==> spec.value == RunRecord(rg, LaterSpec(rg, params, o).value.0, LaterSpec(rg, params, o).value.1))
  {
  }

  /** The records of the seven steps a run calls, in call order. */
  function RunRecords(fns: StepFunctions): (rs: seq<PipelineStep>)
    ensures |rs| == |StepNames|
  {
    [fns.normalizeRigid.step, fns.globalRegistration.step, fns.refineRegistration.step,
     fns.normalizeNonrigid.step, fns.nonrigidRegistration.step, fns.denormalizeNonrigid.step,
     fns.denormalizeRigid.step]
  }

  /** No two steps of a run share a record. */
  lemma RunRecordsDistinct(fns: StepFunctions)
    requires fns.Valid()
    ensures forall i, j :: 0 <= i < j < |StepNames| ==> RunRecords(fns)[i] != RunRecords(fns)[j]
  {
    var rs := RunRecords(fns);
    forall i, j | 0 <= i < j < |StepNames|
      ensures rs[i] != rs[j]
    {
      var ii, jj := if i == 0 then 0 else i + 1, if j == 0 then 0 else j + 1;
      assert rs[i] == fns.Records()[ii] && rs[j] == fns.Records()[jj];
    }
  }

  /** `[(name, step.transform['Source']) for name, step in self.steps.items()
      if step.transform]`, with the keys in insertion order. */
  function Listed(names: seq<string>, steps: map<string, PipelineStep>): (ts: seq<(string, Transform)>)
    requires forall k :: k in names ==> k in steps
    reads steps.Values
    ensures |ts| <= |names|
  {
    if |names| == 0 then []
    else
      var s := steps[names[0]];
      (if s.transform.Some? then [(names[0], s.transform.value.source)] else []) + Listed(names[1..], steps)
  }

  /** When every step has reported its transforms, the list has one entry
      per step, in insertion order, each the step's `'Source'` transform. */
  lemma {:induction false} ListedAll(names: seq<string>, steps: map<string, PipelineStep>)
    requires forall k :: k in names ==> k in steps
    requires forall i :: 0 <= i < |names| ==> steps[names[i]].transform.Some?
    ensures |Listed(names, steps)| == |names|
    ensures forall i :: 0 <= i < |names| ==>
              Listed(names, steps)[i] == (names[i], steps[names[i]].transform.value.source)
  {
    if |names| > 0 {
      ListedAll(names[1..], steps);
      var rest := Listed(names[1..], steps);
      assert forall i :: 1 <= i < |names| ==> names[1..][i - 1] == names[i];
    }
  }
}
