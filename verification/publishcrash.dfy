/** What crashes leave behind: any number of attempts at one release, interleaved and crashed
    anywhere, leave a store from which one undisturbed run still leads to the same result.
    Attempts at other releases change nothing about what is stored under the version. */
module PublishCrash {
  import opened Text
  import opened Publish
  import opened PublishProofs
  import opened PublishRun

  // ---- what one step does to the store

  datatype Effect = Nothing | New(key: Key, file: Content) | Overwrite(key: Key, file: Content)

  function EffectOf(digest: Digest, s: State, a: Action): Effect
    requires Enabled(digest, s, a)
  {
    match a
    case Mirror(id, name, file) => New(Versioned(s.attempts[id].version, name), file)
    case Upload(id, name, file) => New(Versioned(s.attempts[id].version, name), file)
    case PutMetadata(id) => New(Versioned(s.attempts[id].version, RELEASE_JSON), MetadataOf(s.attempts[id]))
    case PutInstaller(id, file) => Overwrite(Installer(s.attempts[id].phase.todo[0]), file)
    case PutChannel(id) => Overwrite(Channel(s.attempts[id].phase.todo[0]), MetadataOf(s.attempts[id]))
    case _ => Nothing
  }

  function Apply(digest: Digest, store: Store, e: Effect): Store {
    match e
    case Nothing => store
    case New(key, file) => PutNew(store, key, Sealed(digest, file))
    case Overwrite(key, file) => store[key := Sealed(digest, file)]
  }

  lemma StepStore(digest: Digest, s: State, a: Action)
    requires Enabled(digest, s, a)
    ensures Step(digest, s, a).store == Apply(digest, s.store, EffectOf(digest, s, a))
  {
  }

  // ---- what one step does to the attempts

  /** The attempt is gone, or only its phase has changed. */
  predicate Moves(s: State, t: State, id: int) {
    || t.attempts == s.attempts - {id}
    || (id in s.attempts && id in t.attempts && t.attempts == s.attempts[id := s.attempts[id].(phase := t.attempts[id].phase)])
  }

  lemma StepMoves(digest: Digest, s: State, a: Action)
    requires Enabled(digest, s, a) && !a.Start?
    ensures Moves(s, Step(digest, s, a), a.id)
  {
  }

  /** The mutable keys of a plan: installer names and channel names. */
  datatype Keys = Keys(installers: set<string>, channels: set<string>)

  function KeysOf(p: Plan): Keys {
    Keys(InstallerNames(p), ChannelNames(p))
  }

  /** What is left to do is among the keys. */
  predicate PhaseOk(ph: Phase, k: Keys) {
    && (ph.Installing? ==> forall i | 0 <= i < |ph.todo| :: ph.todo[i] in k.installers)
    && (ph.Pointing? ==> forall i | 0 <= i < |ph.todo| :: ph.todo[i] in k.channels)
  }

  /** The installers and channels of an attempt are among the keys. */
  predicate Covers(k: Keys, t: Attempt) {
    && (!t.prerelease ==> forall i | 0 <= i < |INSTALLERS| :: INSTALLERS[i] in k.installers)
    && forall i | 0 <= i < |Channels(t)| :: Channels(t)[i] in k.channels
  }

  lemma InstallPhase(digest: Digest, s: State, a: Action, k: Keys)
    requires Enabled(digest, s, a) && (a.VerifyMetadata? || a.PutInstaller? || a.VerifyInstaller?)
    requires PhaseOk(s.attempts[a.id].phase, k) && Covers(k, s.attempts[a.id])
    ensures var t := Step(digest, s, a); a.id in t.attempts ==> PhaseOk(t.attempts[a.id].phase, k)
  {
  }

  lemma PointPhase(digest: Digest, s: State, a: Action, k: Keys)
    requires Enabled(digest, s, a) && (a.EndInstallers? || a.PutChannel? || a.VerifyChannel?)
    requires PhaseOk(s.attempts[a.id].phase, k) && Covers(k, s.attempts[a.id])
    ensures var t := Step(digest, s, a); a.id in t.attempts ==> PhaseOk(t.attempts[a.id].phase, k)
  {
  }

  lemma EarlyPhase(digest: Digest, s: State, a: Action)
    requires Enabled(digest, s, a) && !a.Start?
    requires !a.VerifyMetadata? && !a.PutInstaller? && !a.VerifyInstaller? && !a.EndInstallers? && !a.PutChannel? && !a.VerifyChannel?
    ensures var t := Step(digest, s, a);
            a.id in t.attempts ==> !t.attempts[a.id].phase.Installing? && !t.attempts[a.id].phase.Pointing?
  {
  }

  lemma StepPhase(digest: Digest, s: State, a: Action, k: Keys)
    requires Enabled(digest, s, a) && !a.Start?
    requires PhaseOk(s.attempts[a.id].phase, k) && Covers(k, s.attempts[a.id])
    ensures var t := Step(digest, s, a); a.id in t.attempts ==> PhaseOk(t.attempts[a.id].phase, k)
  {
    if a.VerifyMetadata? || a.PutInstaller? || a.VerifyInstaller? {
      InstallPhase(digest, s, a, k);
    } else if a.EndInstallers? || a.PutChannel? || a.VerifyChannel? {
      PointPhase(digest, s, a, k);
    } else {
      EarlyPhase(digest, s, a);
    }
  }

  // ---- attempts at the plan's release

  predicate SameRelease(t: Attempt, p: Plan) {
    t.version == p.version && t.assets == p.assets && t.latest == p.latest && t.prerelease == p.prerelease
  }

  /** A step of an attempt at the plan: it starts with the plan's release and uploads the
      plan's files. */
  predicate PlanStep(s: State, a: Action, p: Plan) {
    match a
    case Start(_, t) => SameRelease(t, p)
    case Mirror(_, name, file) => name in p.files && file == p.files[name]
    case Upload(_, name, file) => name in p.files && file == p.files[name]
    case PutInstaller(id, file) =>
      id in s.attempts && s.attempts[id].phase.Installing? && s.attempts[id].phase.todo != [] ==>
        s.attempts[id].phase.todo[0] in p.files && file == p.files[s.attempts[id].phase.todo[0]]
    case _ => true
  }

  predicate PlanRun(digest: Digest, s: State, actions: seq<Action>, p: Plan) {
    actions == [] ||
    var before := actions[..|actions| - 1];
    && PlanRun(digest, s, before, p)
    && match Run(digest, s, before)
       case Some(t) => PlanStep(t, actions[|actions| - 1], p)
       case None => true
  }

  predicate AttemptsOk(s: State, p: Plan, k: Keys) {
    forall id | id in s.attempts :: SameRelease(s.attempts[id], p) && PhaseOk(s.attempts[id].phase, k)
  }

  /** The file goes where a run of the plan puts it. */
  predicate Fits(e: Effect, p: Plan, k: Keys) {
    match e
    case Nothing => true
    case New(key, file) => key.Versioned? && key.version == p.version && FileFits(key.name, file, p)
    case Overwrite(key, file) =>
      || (key.Installer? && key.name in k.installers && key.name in p.files && file == p.files[key.name])
      || (key.Channel? && key.name in k.channels && file == MetadataFile(p))
  }

  predicate FileFits(name: string, file: Content, p: Plan) {
    || (HasAsset(p.assets, name) && name in p.files && file == p.files[name])
    || (name == RELEASE_JSON && file == MetadataFile(p))
  }

  lemma EffectFits(digest: Digest, s: State, a: Action, p: Plan, k: Keys)
    requires Enabled(digest, s, a) && PlanStep(s, a, p) && AttemptsOk(s, p, k)
    ensures Fits(EffectOf(digest, s, a), p, k)
  {
    if !a.Start? {
      assert SameRelease(s.attempts[a.id], p) && PhaseOk(s.attempts[a.id].phase, k);
    }
  }

  lemma NewKeyKeeps(created: Store, before: Store, mid: Store, moved: Store, key: Key, o: Object)
    requires Between(created, before, mid, moved) && key in created && created[key] == o
    ensures Between(created, before, PutNew(mid, key, o), moved)
  {
  }

  lemma MovedKeyKeeps(created: Store, before: Store, mid: Store, moved: Store, key: Key, o: Object)
    requires Between(created, before, mid, moved) && key in moved && moved[key] == o
    ensures Between(created, before, mid[key := o], moved)
  {
  }

  lemma FileCreated(digest: Digest, p: Plan, name: string, file: Content)
    requires ValidAssets(p.assets) && FileFits(name, file, p)
    ensures Versioned(p.version, name) in Created(digest, p)
    ensures Created(digest, p)[Versioned(p.version, name)] == Sealed(digest, file)
  {
    if name != RELEASE_JSON {
      var i :| 0 <= i < |p.assets| && p.assets[i].name == name;
      assert name in Names(p.assets);
    }
  }

  lemma InstallerMoved(digest: Digest, p: Plan, k: Keys, name: string)
    requires name in k.installers && name in p.files
    ensures var moved := MovedTo(digest, p, k.installers, k.channels);
            Installer(name) in moved && moved[Installer(name)] == Sealed(digest, p.files[name])
  {
    assert Installer(name) in InstallerObjects(digest, p, k.installers);
    assert Installer(name) !in ChannelObjects(digest, p, k.channels);
  }

  lemma ChannelMoved(digest: Digest, p: Plan, k: Keys, name: string)
    requires name in k.channels
    ensures var moved := MovedTo(digest, p, k.installers, k.channels);
            Channel(name) in moved && moved[Channel(name)] == Sealed(digest, MetadataFile(p))
  {
    assert Channel(name) in ChannelObjects(digest, p, k.channels);
  }

  lemma ApplyKeeps(digest: Digest, before: Store, mid: Store, p: Plan, e: Effect)
    requires Partial(digest, before, mid, p) && ValidAssets(p.assets) && Fits(e, p, KeysOf(p))
    ensures Partial(digest, before, Apply(digest, mid, e), p)
  {
    var created, moved := Created(digest, p), Moved(digest, p);
    match e
    case Nothing =>
    case New(key, file) =>
      FileCreated(digest, p, key.name, file);
      NewKeyKeeps(created, before, mid, moved, key, Sealed(digest, file));
    case Overwrite(key, file) =>
      if key.Installer? {
        InstallerMoved(digest, p, KeysOf(p), key.name);
      } else {
        ChannelMoved(digest, p, KeysOf(p), key.name);
      }
      MovedKeyKeeps(created, before, mid, moved, key, Sealed(digest, file));
  }

  lemma PlanCovers(t: Attempt, p: Plan)
    requires t.latest == p.latest && t.prerelease == p.prerelease
    ensures Covers(KeysOf(p), t)
  {
  }

  lemma AttemptsMove(s: State, t: State, id: int, p: Plan, k: Keys)
    requires AttemptsOk(s, p, k) && Moves(s, t, id) && (id in t.attempts ==> PhaseOk(t.attempts[id].phase, k))
    ensures AttemptsOk(t, p, k)
  {
  }

  /** Every step leaves the attempts at the plan's release and on the plan's keys. */
  lemma AttemptsStay(digest: Digest, s: State, a: Action, p: Plan)
    requires Enabled(digest, s, a) && PlanStep(s, a, p) && AttemptsOk(s, p, KeysOf(p))
    ensures AttemptsOk(Step(digest, s, a), p, KeysOf(p))
  {
    if a.Start? {
      assert PhaseOk(a.attempt.phase, KeysOf(p));
    } else {
      PlanCovers(s.attempts[a.id], p);
      StepPhase(digest, s, a, KeysOf(p));
      StepMoves(digest, s, a);
      AttemptsMove(s, Step(digest, s, a), a.id, p, KeysOf(p));
    }
  }

  lemma {:induction false} RunKeeps(digest: Digest, s: State, actions: seq<Action>, p: Plan)
    requires s.attempts == map[] && ValidAssets(p.assets)
    requires Run(digest, s, actions).Some? && PlanRun(digest, s, actions, p)
    ensures var t := Run(digest, s, actions).value;
            Partial(digest, s.store, t.store, p) && AttemptsOk(t, p, KeysOf(p))
  {
    if actions != [] {
      var before, a := actions[..|actions| - 1], actions[|actions| - 1];
      var t := Run(digest, s, before).value;
      RunKeeps(digest, s, before, p);
      EffectFits(digest, t, a, p, KeysOf(p));
      StepStore(digest, t, a);
      ApplyKeeps(digest, s.store, t.store, p, EffectOf(digest, t, a));
      AttemptsStay(digest, t, a, p);
    }
  }

  /** Whatever steps attempts at the plan have taken, crashed or not, the plan can still be
      published, and publishing it leads to the store that one undisturbed run produces. */
  lemma CrashesConverge(digest: Digest, s: State, actions: seq<Action>, p: Plan)
    requires s.attempts == map[] && ValidAssets(p.assets) && Publishable(digest, s.store, p)
    requires Run(digest, s, actions).Some? && PlanRun(digest, s, actions, p)
    ensures var mid := Run(digest, s, actions).value.store;
            && Partial(digest, s.store, mid, p) && Publishable(digest, mid, p)
            && Published(digest, mid, p) == Published(digest, s.store, p)
  {
    RunKeeps(digest, s, actions, p);
    RerunConverges(digest, s.store, Run(digest, s, actions).value.store, p);
  }

  // ---- other releases at the same time

  predicate UnderVersion(key: Key, version: string) {
    key.Versioned? && key.version == version
  }

  /** What is stored under a version. */
  function VersionPart(store: Store, version: string): Store {
    map key | key in store && UnderVersion(key, version) :: store[key]
  }

  /** Attempts at the plan's version are attempts at the plan; others are free. */
  predicate VersionStep(s: State, a: Action, p: Plan) {
    match a
    case Start(_, t) => t.version == p.version ==> SameRelease(t, p)
    case Mirror(id, name, file) => OwnUpload(s, id, name, file, p)
    case Upload(id, name, file) => OwnUpload(s, id, name, file, p)
    case _ => true
  }

  predicate OwnUpload(s: State, id: int, name: string, file: Content, p: Plan) {
    id in s.attempts && s.attempts[id].version == p.version ==> name in p.files && file == p.files[name]
  }

  predicate VersionRun(digest: Digest, s: State, actions: seq<Action>, p: Plan) {
    actions == [] ||
    var before := actions[..|actions| - 1];
    && VersionRun(digest, s, before, p)
    && match Run(digest, s, before)
       case Some(t) => VersionStep(t, actions[|actions| - 1], p)
       case None => true
  }

  predicate OwnAttemptsOk(s: State, p: Plan) {
    forall id | id in s.attempts && s.attempts[id].version == p.version :: SameRelease(s.attempts[id], p)
  }

  lemma OwnAttemptsStay(digest: Digest, s: State, a: Action, p: Plan)
    requires Enabled(digest, s, a) && VersionStep(s, a, p) && OwnAttemptsOk(s, p)
    ensures OwnAttemptsOk(Step(digest, s, a), p)
  {
    if !a.Start? {
      StepMoves(digest, s, a);
    }
  }

  /** A step puts a file of the plan under the plan's version, or leaves that part alone. */
  lemma OwnEffect(digest: Digest, s: State, a: Action, p: Plan)
    requires Enabled(digest, s, a) && VersionStep(s, a, p) && OwnAttemptsOk(s, p)
    ensures match EffectOf(digest, s, a)
            case Nothing => true
            case New(key, file) => UnderVersion(key, p.version) ==> FileFits(key.name, file, p)
            case Overwrite(key, _) => !UnderVersion(key, p.version)
  {
  }

  lemma PutElsewhere(store: Store, key: Key, o: Object, version: string)
    requires !UnderVersion(key, version)
    ensures VersionPart(store[key := o], version) == VersionPart(store, version)
  {
  }

  lemma PutUnder(store: Store, key: Key, o: Object, version: string)
    requires UnderVersion(key, version)
    ensures VersionPart(PutNew(store, key, o), version) == PutNew(VersionPart(store, version), key, o)
  {
  }

  lemma NewPartKeeps(created: Store, before: Store, mid: Store, moved: Store, key: Key, o: Object, version: string)
    requires Between(created, before, VersionPart(mid, version), moved)
    requires UnderVersion(key, version) ==> key in created && created[key] == o
    ensures Between(created, before, VersionPart(PutNew(mid, key, o), version), moved)
  {
    if UnderVersion(key, version) {
      PutUnder(mid, key, o, version);
      NewKeyKeeps(created, before, VersionPart(mid, version), moved, key, o);
    } else {
      PutElsewhere(mid, key, o, version);
    }
  }

  lemma PartKeeps(digest: Digest, before: Store, mid: Store, p: Plan, e: Effect)
    requires Partial(digest, before, VersionPart(mid, p.version), p) && ValidAssets(p.assets)
    requires e.New? && UnderVersion(e.key, p.version) ==> FileFits(e.key.name, e.file, p)
    requires e.Overwrite? ==> !UnderVersion(e.key, p.version)
    ensures Partial(digest, before, VersionPart(Apply(digest, mid, e), p.version), p)
  {
    match e
    case Nothing =>
    case New(key, file) =>
      if UnderVersion(key, p.version) {
        FileCreated(digest, p, key.name, file);
      }
      NewPartKeeps(Created(digest, p), before, mid, Moved(digest, p), key, Sealed(digest, file), p.version);
    case Overwrite(key, file) => PutElsewhere(mid, key, Sealed(digest, file), p.version);
  }

  lemma {:induction false} VersionRunKeeps(digest: Digest, s: State, actions: seq<Action>, p: Plan)
    requires OwnAttemptsOk(s, p) && ValidAssets(p.assets)
    requires Run(digest, s, actions).Some? && VersionRun(digest, s, actions, p)
    ensures var t := Run(digest, s, actions).value;
            && Partial(digest, VersionPart(s.store, p.version), VersionPart(t.store, p.version), p)
            && OwnAttemptsOk(t, p)
  {
    if actions != [] {
      var before, a := actions[..|actions| - 1], actions[|actions| - 1];
      var t := Run(digest, s, before).value;
      VersionRunKeeps(digest, s, before, p);
      OwnEffect(digest, t, a, p);
      StepStore(digest, t, a);
      PartKeeps(digest, VersionPart(s.store, p.version), t.store, p, EffectOf(digest, t, a));
      OwnAttemptsStay(digest, t, a, p);
    }
  }

  /** Whether a plan can be published depends only on what is stored under its version. */
  lemma PublishableByPart(digest: Digest, store: Store, p: Plan)
    ensures Publishable(digest, store, p) <==> Publishable(digest, VersionPart(store, p.version), p)
  {
    var part := VersionPart(store, p.version);
    forall n | HasAsset(p.assets, n) ensures AssetReady(digest, store, p, n) <==> AssetReady(digest, part, p, n) {
      SameUnder(store, p.version, n);
    }
    SameUnder(store, p.version, RELEASE_JSON);
  }

  lemma SameUnder(store: Store, version: string, name: string)
    ensures var key, part := Versioned(version, name), VersionPart(store, version);
            (key in part <==> key in store) && (key in store ==> part[key] == store[key])
  {
  }

  lemma PublishedPart(digest: Digest, store: Store, p: Plan)
    ensures VersionPart(Published(digest, store, p), p.version) ==
            VersionPart(Published(digest, VersionPart(store, p.version), p), p.version)
  {
    OverlayPart(Created(digest, p), store, Moved(digest, p), p.version);
  }

  lemma OverlayPart(created: Store, store: Store, moved: Store, version: string)
    ensures VersionPart(Overlay(created, store, moved), version) ==
            VersionPart(Overlay(created, VersionPart(store, version), moved), version)
  {
  }

  /** Attempts at other releases may run at the same time: from any state whose attempts at
      the version are attempts at the plan, the plan can still be published, everything under
      its version ends up as in an undisturbed run, and its channels and installers with it. */
  lemma OthersDoNotMatter(digest: Digest, s: State, actions: seq<Action>, p: Plan)
    requires OwnAttemptsOk(s, p) && ValidAssets(p.assets) && Publishable(digest, s.store, p)
    requires Run(digest, s, actions).Some? && VersionRun(digest, s, actions, p)
    ensures var mid := Run(digest, s, actions).value.store;
            && Publishable(digest, mid, p)
            && VersionPart(Published(digest, mid, p), p.version) == VersionPart(Published(digest, s.store, p), p.version)
            && forall key | key in Moved(digest, p) :: Published(digest, mid, p)[key] == Published(digest, s.store, p)[key]
  {
    VersionRunKeeps(digest, s, actions, p);
    var mid := Run(digest, s, actions).value.store;
    PublishableByPart(digest, s.store, p);
    PublishableByPart(digest, mid, p);
    RerunConverges(digest, VersionPart(s.store, p.version), VersionPart(mid, p.version), p);
    PublishedPart(digest, s.store, p);
    PublishedPart(digest, mid, p);
  }
}
