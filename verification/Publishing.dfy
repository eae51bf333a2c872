/**
 Publishing evidence generations behind the CURRENT pointer, as a state machine:
 builders, their clean-up after a failure, sweeps of temporary files and reap passes
 interleave freely, and any of them may stop for good between two steps.
 */
module Publishing {
  import opened Common

  type GenId = nat
  type PassId = nat

  datatype Builder = Building | Manifested | Placed | Complete | Pointed | Published | Failed(doomed: bool)

  datatype Entry = EvidenceTmp | Evidence | ManifestTmp | Manifest

  /** One generation directory and the builder that made it; `entries` are its files. */
  datatype Generation = Generation(
    born: Time,
    mtime: Time,
    dir: bool,
    entries: set<Entry>,
    pointerTmp: bool,
    builder: Builder,
    publishedAt: Option<Time>)

  /** A reap pass remembers the pointer it read when it began and what it decided to remove. */
  datatype Pass = Pass(start: Time, pointer: Option<GenId>, doomed: set<GenId>)

  datatype State = State(now: Time, gens: map<GenId, Generation>, current: Option<GenId>, passes: map<PassId, Pass>)

  const INIT := State(0, map[], None, map[])

  /**
   `publish` bounds the time from a generation's mkdir to CURRENT naming it, `pass` the
   time from a reap pass reading CURRENT to its last removal, `reap` is the configured
   reap age.  `flaky` allows a failed builder to be unable to read an existing CURRENT.
   */
  datatype Limits = Limits(publish: nat, pass: nat, reap: nat, flaky: bool)

  datatype Action =
    | Tick(delta: nat)
    | MakeDir(g: GenId)
    | WriteEvidence(g: GenId)
    | WriteManifest(g: GenId)
    | PlaceEvidence(g: GenId)
    | PlaceManifest(g: GenId)
    | WritePointer(g: GenId)
    | Publish(g: GenId)
    | Fail(g: GenId, cleans: bool, readable: bool)
    | CleanUp(g: GenId, entry: Entry)
    | SweepTemporary(g: GenId, entry: Entry)
    | SweepPointer(g: GenId)
    | RemoveDir(g: GenId)
    | BeginReap(p: PassId, readable: bool)
    | Judge(p: PassId, g: GenId)
    | Reap(p: PassId, g: GenId, entry: Entry)

  predicate Whole(gen: Generation) {
    Evidence in gen.entries && Manifest in gen.entries
  }

  predicate BuilderAt(s: State, g: GenId, b: Builder) {
    g in s.gens && s.gens[g].builder == b
  }

  predicate PassAt(limits: Limits, s: State, p: PassId) {
    p in s.passes && s.now - s.passes[p].start <= limits.pass
  }

  /** What a reap pass removes: not what its pointer names, nothing whole without a pointer, nothing young. */
  predicate Reapable(limits: Limits, s: State, pass: Pass, g: GenId)
    requires g in s.gens
  {
    && s.gens[g].dir
    && pass.pointer != Some(g)
    && !(pass.pointer.None? && Whole(s.gens[g]))
    && s.now - s.gens[g].mtime >= limits.reap
  }

  predicate Enabled(limits: Limits, s: State, a: Action) {
    match a
    case Tick(_) => true
    case MakeDir(g) => g !in s.gens
    case WriteEvidence(g) => BuilderAt(s, g, Building) && s.gens[g].dir
    case WriteManifest(g) => BuilderAt(s, g, Building) && s.gens[g].dir
    case PlaceEvidence(g) => BuilderAt(s, g, Manifested) && EvidenceTmp in s.gens[g].entries
    case PlaceManifest(g) => BuilderAt(s, g, Placed) && ManifestTmp in s.gens[g].entries
    case WritePointer(g) => BuilderAt(s, g, Complete)
    case Publish(g) =>
      BuilderAt(s, g, Pointed) && s.gens[g].pointerTmp && s.now - s.gens[g].born <= limits.publish
    case Fail(g, _, readable) => g in s.gens && !s.gens[g].builder.Failed? &&
        (readable || limits.flaky || s.current.None?)
    case CleanUp(g, _) => BuilderAt(s, g, Failed(true))
    case SweepTemporary(g, entry) => g in s.gens && entry in {EvidenceTmp, ManifestTmp}
    case SweepPointer(g) => g in s.gens
    case RemoveDir(g) => g in s.gens && s.gens[g].entries == {}
    case BeginReap(p, _) => p !in s.passes
    case Judge(p, g) => PassAt(limits, s, p) && g in s.gens && Reapable(limits, s, s.passes[p], g)
    case Reap(p, g, _) => PassAt(limits, s, p) && g in s.passes[p].doomed && g in s.gens
  }

  /** A directory's modification time follows every change of its entries. */
  function WithEntries(s: State, gen: Generation, entries: set<Entry>): Generation {
    if entries == gen.entries then gen else gen.(entries := entries, mtime := s.now)
  }

  function SetGen(s: State, g: GenId, gen: Generation): State {
    s.(gens := s.gens[g := gen])
  }

  function Step(limits: Limits, s: State, a: Action): State
    requires Enabled(limits, s, a)
  {
    match a
    case Tick(delta) => s.(now := s.now + delta)
    case MakeDir(g) => SetGen(s, g, Generation(s.now, s.now, true, {}, false, Building, None))
    case WriteEvidence(g) => SetGen(s, g, WithEntries(s, s.gens[g], s.gens[g].entries + {EvidenceTmp}))
    case WriteManifest(g) =>
      SetGen(s, g, WithEntries(s, s.gens[g], s.gens[g].entries + {ManifestTmp}).(builder := Manifested))
    case PlaceEvidence(g) =>
      SetGen(s, g, WithEntries(s, s.gens[g], s.gens[g].entries - {EvidenceTmp} + {Evidence}).(builder := Placed))
    case PlaceManifest(g) =>
      SetGen(s, g, WithEntries(s, s.gens[g], s.gens[g].entries - {ManifestTmp} + {Manifest}).(builder := Complete))
    case WritePointer(g) => SetGen(s, g, s.gens[g].(builder := Pointed, pointerTmp := true))
    case Publish(g) =>
      SetGen(s, g, s.gens[g].(builder := Published, pointerTmp := false, publishedAt := Some(s.now)))
      .(current := Some(g))
    case Fail(g, cleans, readable) =>
      var seen := if readable then s.current else None;
      SetGen(s, g, s.gens[g].(builder := Failed(cleans && seen != Some(g))))
    case CleanUp(g, entry) => SetGen(s, g, WithEntries(s, s.gens[g], s.gens[g].entries - {entry}))
    case SweepTemporary(g, entry) => SetGen(s, g, WithEntries(s, s.gens[g], s.gens[g].entries - {entry}))
    case SweepPointer(g) => SetGen(s, g, s.gens[g].(pointerTmp := false))
    case RemoveDir(g) => SetGen(s, g, s.gens[g].(dir := false))
    case BeginReap(p, readable) =>
      s.(passes := s.passes[p := Pass(s.now, if readable then s.current else None, {})])
    case Judge(p, g) => s.(passes := s.passes[p := s.passes[p].(doomed := s.passes[p].doomed + {g})])
    case Reap(p, g, entry) => SetGen(s, g, WithEntries(s, s.gens[g], s.gens[g].entries - {entry}))
  }

  ghost predicate Reaches(limits: Limits, actions: seq<Action>, s: State) {
    if actions == [] then s == INIT
    else
      var n := |actions| - 1;
      exists before ::
        Reaches(limits, actions[..n], before) && Enabled(limits, before, actions[n]) &&
            s == Step(limits, before, actions[n])
  }

  /** CURRENT, when present, leads to an evidence database and its manifest. */
  predicate Readable(s: State) {
    s.current.Some? ==> s.current.value in s.gens && Whole(s.gens[s.current.value])
  }

  ghost predicate AlwaysReadable(limits: Limits) {
    forall actions, s :: Reaches(limits, actions, s) ==> Readable(s)
  }

  // ----- what every step keeps -----

  /** A generation CURRENT will never name again. */
  predicate Lost(limits: Limits, s: State, g: GenId)
    requires g in s.gens
  {
    s.current != Some(g) && (s.gens[g].publishedAt.Some? || s.now - s.gens[g].born > limits.publish)
  }

  predicate GenInv(limits: Limits, s: State, g: GenId)
    requires g in s.gens
  {
    var gen := s.gens[g];
    && gen.born <= gen.mtime <= s.now
    && (gen.publishedAt.Some? ==>
          && (gen.builder.Published? || gen.builder.Failed?)
          && gen.publishedAt.value - gen.born <= limits.publish)
    && (gen.builder.Published? ==> gen.publishedAt.Some?)
    && (gen.builder == Failed(true) ==> s.current != Some(g))
    && (gen.builder == Placed ==> Evidence in gen.entries || Lost(limits, s, g))
    && (gen.builder == Complete || gen.builder == Pointed ==> Whole(gen) || Lost(limits, s, g))
    && (s.current == Some(g) ==> gen.publishedAt.Some? && Whole(gen))
  }

  ghost predicate PassInv(limits: Limits, s: State, pass: Pass) {
    && pass.start <= s.now
    && (forall g :: g in pass.doomed ==> g in s.gens && Lost(limits, s, g))
    && (s.current.Some? && pass.pointer.Some? && pass.pointer != s.current && s.current.value in s.gens ==>
          s.gens[s.current.value].publishedAt.Some? && s.gens[s.current.value].publishedAt.value >= pass.start)
  }

  ghost predicate Inv(limits: Limits, s: State) {
    && (s.current.Some? ==> s.current.value in s.gens)
    && (forall g :: g in s.gens ==> GenInv(limits, s, g))
    && (forall p :: p in s.passes ==> PassInv(limits, s, s.passes[p]))
  }

  predicate Sound(limits: Limits) {
    limits.publish + limits.pass < limits.reap && !limits.flaky
  }

  /** Whatever a pass in time decides to remove is lost to CURRENT already. */
  lemma JudgedIsLost(limits: Limits, s: State, p: PassId, g: GenId)
    requires Sound(limits) && Inv(limits, s) && Enabled(limits, s, Judge(p, g))
    ensures Lost(limits, s, g)
  {
    assert GenInv(limits, s, g) && PassInv(limits, s, s.passes[p]);
  }

  lemma LostStays(limits: Limits, s: State, a: Action, g: GenId)
    requires Inv(limits, s) && Enabled(limits, s, a)
    requires g in s.gens && Lost(limits, s, g)
    ensures g in Step(limits, s, a).gens && Lost(limits, Step(limits, s, a), g)
  {
    assert GenInv(limits, s, g);
  }

  /** A removal never reaches the generation CURRENT names. */
  lemma RemovalSpares(limits: Limits, s: State, a: Action)
    requires Inv(limits, s) && Enabled(limits, s, a)
    requires a.Reap? || a.CleanUp?
    ensures s.current != Some(a.g) && (a.Reap? ==> Lost(limits, s, a.g))
  {
    if a.Reap? {
      assert PassInv(limits, s, s.passes[a.p]);
    } else {
      assert GenInv(limits, s, a.g);
    }
  }

  lemma GenStep(limits: Limits, s: State, a: Action, g: GenId)
    requires !limits.flaky && Inv(limits, s) && Enabled(limits, s, a)
    requires g in Step(limits, s, a).gens
    ensures GenInv(limits, Step(limits, s, a), g)
  {
    if g in s.gens {
      assert GenInv(limits, s, g);
      if Lost(limits, s, g) {
        LostStays(limits, s, a, g);
      }
    }
    if a.Reap? || a.CleanUp? {
      RemovalSpares(limits, s, a);
    }
  }

  lemma PassStep(limits: Limits, s: State, a: Action, p: PassId)
    requires Sound(limits) && Inv(limits, s) && Enabled(limits, s, a)
    requires p in Step(limits, s, a).passes
    ensures PassInv(limits, Step(limits, s, a), Step(limits, s, a).passes[p])
  {
    var next := Step(limits, s, a);
    if a.Judge? {
      JudgedIsLost(limits, s, a.p, a.g);
    }
    forall g | g in next.passes[p].doomed ensures g in next.gens && Lost(limits, next, g) {
      if p in s.passes && g in s.passes[p].doomed {
        assert PassInv(limits, s, s.passes[p]);
      }
      LostStays(limits, s, a, g);
    }
    if p in s.passes {
      assert PassInv(limits, s, s.passes[p]);
    }
  }

  lemma StepInv(limits: Limits, s: State, a: Action)
    requires Sound(limits) && Inv(limits, s) && Enabled(limits, s, a)
    ensures Inv(limits, Step(limits, s, a))
  {
    var next := Step(limits, s, a);
    forall g | g in next.gens ensures GenInv(limits, next, g) {
      GenStep(limits, s, a, g);
    }
    forall p | p in next.passes ensures PassInv(limits, next, next.passes[p]) {
      PassStep(limits, s, a, p);
    }
  }

  lemma {:induction false} ReachableInv(limits: Limits, actions: seq<Action>, s: State)
    requires Sound(limits) && Reaches(limits, actions, s)
    ensures Inv(limits, s)
  {
    if actions != [] {
      var n := |actions| - 1;
      var before :| Reaches(limits, actions[..n], before) && Enabled(limits, before, actions[n])
                    && s == Step(limits, before, actions[n]);
      ReachableInv(limits, actions[..n], before);
      StepInv(limits, before, actions[n]);
    }
  }

  // ----- runs that break the promise -----

  lemma ReachesSnoc(limits: Limits, actions: seq<Action>, s: State, a: Action)
    requires Reaches(limits, actions, s) && Enabled(limits, s, a)
    ensures Reaches(limits, actions + [a], Step(limits, s, a))
  {
    assert (actions + [a])[..|actions|] == actions;
  }

  /** One step of the builder of `g` replaces that generation and nothing else. */
  lemma ReachesBuilt(limits: Limits, actions: seq<Action>, s: State, g: GenId, was: Generation, a: Action,
                     gen: Generation)
    requires Reaches(limits, actions, SetGen(s, g, was)) && Enabled(limits, SetGen(s, g, was), a)
    requires Step(limits, SetGen(s, g, was), a) == SetGen(SetGen(s, g, was), g, gen)
    ensures Reaches(limits, actions + [a], SetGen(s, g, gen))
  {
    ReachesSnoc(limits, actions, SetGen(s, g, was), a);
    assert SetGen(SetGen(s, g, was), g, gen) == SetGen(s, g, gen);
  }

  function Made(at: Time, entries: set<Entry>, pointerTmp: bool, builder: Builder): Generation {
    Generation(at, at, true, entries, pointerTmp, builder, None)
  }

  /** A builder can write a whole generation and its pointer file within one instant. */
  lemma CanPrepare(limits: Limits, actions: seq<Action>, s: State, g: GenId) returns (longer: seq<Action>)
    requires Reaches(limits, actions, s) && g !in s.gens
    ensures Reaches(limits, longer, SetGen(s, g, Made(s.now, {Evidence, Manifest}, true, Pointed)))
  {
    var empty := Made(s.now, {}, false, Building);
    ReachesSnoc(limits, actions, s, MakeDir(g));
    longer := actions + [MakeDir(g)];
    var evidence := Made(s.now, {EvidenceTmp}, false, Building);
    assert {} + {EvidenceTmp} == {EvidenceTmp};
    ReachesBuilt(limits, longer, s, g, empty, WriteEvidence(g), evidence);
    longer := longer + [WriteEvidence(g)];
    var both := Made(s.now, {EvidenceTmp, ManifestTmp}, false, Manifested);
    assert {EvidenceTmp} + {ManifestTmp} == {EvidenceTmp, ManifestTmp};
    ReachesBuilt(limits, longer, s, g, evidence, WriteManifest(g), both);
    longer := CanPlace(limits, longer + [WriteManifest(g)], s, g);
  }

  lemma CanPlace(limits: Limits, actions: seq<Action>, s: State, g: GenId) returns (longer: seq<Action>)
    requires Reaches(limits, actions, SetGen(s, g, Made(s.now, {EvidenceTmp, ManifestTmp}, false, Manifested)))
    ensures Reaches(limits, longer, SetGen(s, g, Made(s.now, {Evidence, Manifest}, true, Pointed)))
  {
    var both := Made(s.now, {EvidenceTmp, ManifestTmp}, false, Manifested);
    var placed := Made(s.now, {ManifestTmp, Evidence}, false, Placed);
    assert {EvidenceTmp, ManifestTmp} - {EvidenceTmp} + {Evidence} == {ManifestTmp, Evidence};
    ReachesBuilt(limits, actions, s, g, both, PlaceEvidence(g), placed);
    longer := actions + [PlaceEvidence(g)];
    var complete := Made(s.now, {Evidence, Manifest}, false, Complete);
    assert {ManifestTmp, Evidence} - {ManifestTmp} + {Manifest} == {Evidence, Manifest};
    ReachesBuilt(limits, longer, s, g, placed, PlaceManifest(g), complete);
    longer := longer + [PlaceManifest(g)];
    ReachesBuilt(limits, longer, s, g, complete, WritePointer(g), Made(s.now, {Evidence, Manifest}, true, Pointed));
    longer := longer + [WritePointer(g)];
  }

  /** The first generation, published as soon as it is whole. */
  lemma FirstPublished(limits: Limits) returns (actions: seq<Action>, s: State)
    ensures Reaches(limits, actions, s)
    ensures s.now == 0 && s.current == Some(0) && s.passes == map[] && s.gens.Keys == {0}
    ensures s.gens[0] == Generation(0, 0, true, {Evidence, Manifest}, false, Published, Some(0))
  {
    actions := CanPrepare(limits, [], INIT, 0);
    var ready := SetGen(INIT, 0, Made(0, {Evidence, Manifest}, true, Pointed));
    ReachesSnoc(limits, actions, ready, Publish(0));
    actions, s := actions + [Publish(0)], Step(limits, ready, Publish(0));
  }

  /** Its builder is interrupted just after, cannot read CURRENT, and removes what CURRENT names. */
  lemma UnreadablePointerLosesEvidence(limits: Limits) returns (actions: seq<Action>, s: State)
    requires limits.flaky
    ensures Reaches(limits, actions, s) && !Readable(s)
  {
    actions, s := FirstPublished(limits);
    ReachesSnoc(limits, actions, s, Fail(0, true, false));
    actions, s := actions + [Fail(0, true, false)], Step(limits, s, Fail(0, true, false));
    ReachesSnoc(limits, actions, s, CleanUp(0, Evidence));
    actions, s := actions + [CleanUp(0, Evidence)], Step(limits, s, CleanUp(0, Evidence));
  }

  /** A second generation is ready when the slowest allowed publish is about to end, and a reap pass reads CURRENT. */
  lemma SlowPublish(limits: Limits) returns (actions: seq<Action>, s: State)
    ensures Reaches(limits, actions, s)
    ensures s.now == limits.publish && s.current == Some(1)
    ensures s.passes == map[0 := Pass(limits.publish, Some(0), {})]
    ensures 1 in s.gens && s.gens[1].dir && s.gens[1].mtime == 0 && Whole(s.gens[1])
  {
    actions, s := FirstPublished(limits);
    actions := CanPrepare(limits, actions, s, 1);
    s := SetGen(s, 1, Made(0, {Evidence, Manifest}, true, Pointed));
    ReachesSnoc(limits, actions, s, Tick(limits.publish));
    actions, s := actions + [Tick(limits.publish)], s.(now := limits.publish);
    ReachesSnoc(limits, actions, s, BeginReap(0, true));
    actions, s := actions + [BeginReap(0, true)], Step(limits, s, BeginReap(0, true));
    ReachesSnoc(limits, actions, s, Publish(1));
    actions, s := actions + [Publish(1)], Step(limits, s, Publish(1));
  }

  /** The pass then meets the second generation just before its own time is up. */
  lemma SlowPassLosesEvidence(limits: Limits) returns (actions: seq<Action>, s: State)
    requires limits.publish + limits.pass >= limits.reap
    ensures Reaches(limits, actions, s) && !Readable(s)
  {
    actions, s := SlowPublish(limits);
    ReachesSnoc(limits, actions, s, Tick(limits.pass));
    actions, s := actions + [Tick(limits.pass)], s.(now := s.now + limits.pass);
    ReachesSnoc(limits, actions, s, Judge(0, 1));
    actions, s := actions + [Judge(0, 1)], Step(limits, s, Judge(0, 1));
    ReachesSnoc(limits, actions, s, Reap(0, 1, Evidence));
    actions, s := actions + [Reap(0, 1, Evidence)], Step(limits, s, Reap(0, 1, Evidence));
  }

  /**
   CURRENT always leads to a whole generation exactly when a publish and a reap pass
   together fit inside the reap age and a failed builder can read CURRENT.
   */
  lemma PublishIsSafeIff(limits: Limits)
    ensures AlwaysReadable(limits) <==> limits.publish + limits.pass < limits.reap && !limits.flaky
  {
    if Sound(limits) {
      forall actions, s | Reaches(limits, actions, s) ensures Readable(s) {
        ReachableInv(limits, actions, s);
        if s.current.Some? {
          assert GenInv(limits, s, s.current.value);
        }
      }
    } else if limits.flaky {
      var actions, s := UnreadablePointerLosesEvidence(limits);
    } else {
      var actions, s := SlowPassLosesEvidence(limits);
    }
  }
}
