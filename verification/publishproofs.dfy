/** What every run of publish attempts keeps, whatever crashes, reruns or races. */
module PublishProofs {
  import opened Text
  import opened Publish

  /** Every object carries the checksum of its own content. */
  predicate Honest(digest: Digest, store: Store) {
    forall key | key in store :: store[key].sha256 == digest(store[key].content).sha256
  }

  predicate Stored(digest: Digest, store: Store, version: string, assets: seq<Asset>, name: string) {
    HasAsset(assets, name) ==> Holds(digest, store, Versioned(version, name), SumOf(assets, name))
  }

  predicate AllStored(digest: Digest, store: Store, t: Attempt) {
    forall name | name in Names(t.assets) :: Stored(digest, store, t.version, t.assets, name)
  }

  /** What an attempt has verified by the time it reaches its phase. */
  predicate AttemptOk(digest: Digest, store: Store, t: Attempt) {
    && ValidAssets(t.assets)
    && (t.phase.Finding? ==> forall n | n in t.phase.found :: Stored(digest, store, t.version, t.assets, n))
    && (t.phase.Uploading? ==>
          forall n | n in Names(t.assets) && n !in t.phase.left && n !in t.phase.sent :: Stored(digest, store, t.version, t.assets, n))
    && (t.phase.MetadataReady? || t.phase.MetadataSent? || t.phase.Installing? || t.phase.Pointing? ==> AllStored(digest, store, t))
    && (t.phase.Installing? || t.phase.Pointing? ==>
          Holds(digest, store, Versioned(t.version, RELEASE_JSON), digest(MetadataOf(t))))
  }

  /** A channel points at a release whose stored metadata has the same size and checksum,
      and every asset it lists is stored with the listed checksum. */
  predicate ChannelOk(digest: Digest, store: Store, o: Object) {
    && o.content.Metadata?
    && Holds(digest, store, Versioned(o.content.version, RELEASE_JSON), digest(o.content))
    && forall i | 0 <= i < |o.content.assets| ::
         var key := Versioned(o.content.version, o.content.assets[i].name);
         key in store && store[key].sha256 == o.content.assets[i].sha256
  }

  /** An installer alias is the stored asset of some published release. */
  ghost predicate InstallerOk(digest: Digest, store: Store, name: string, o: Object) {
    exists version: string ::
      Holds(digest, store, Versioned(version, name), digest(o.content)) && Versioned(version, RELEASE_JSON) in store
  }

  ghost predicate Consistent(digest: Digest, store: Store) {
    && Honest(digest, store)
    && (forall key | key in store && key.Channel? :: ChannelOk(digest, store, store[key]))
    && (forall key | key in store && key.Installer? :: InstallerOk(digest, store, key.name, store[key]))
  }

  ghost predicate Inv(digest: Digest, s: State) {
    Consistent(digest, s.store) && forall id | id in s.attempts :: AttemptOk(digest, s.store, s.attempts[id])
  }

  /** Versioned objects are never removed and never changed. */
  predicate Keeps(before: Store, after: Store) {
    forall key | key in before && key.Versioned? :: key in after && after[key] == before[key]
  }

  // ---- growing the store keeps everything that was verified

  lemma AttemptStays(digest: Digest, before: Store, after: Store, t: Attempt)
    requires Keeps(before, after) && AttemptOk(digest, before, t)
    ensures AttemptOk(digest, after, t)
  {
    forall n | Stored(digest, before, t.version, t.assets, n) ensures Stored(digest, after, t.version, t.assets, n) {
    }
  }

  lemma ChannelStays(digest: Digest, before: Store, after: Store, o: Object)
    requires Keeps(before, after) && ChannelOk(digest, before, o)
    ensures ChannelOk(digest, after, o)
  {
  }

  lemma InstallerStays(digest: Digest, before: Store, after: Store, name: string, o: Object)
    requires Keeps(before, after) && InstallerOk(digest, before, name, o)
    ensures InstallerOk(digest, after, name, o)
  {
    var version :| Holds(digest, before, Versioned(version, name), digest(o.content)) && Versioned(version, RELEASE_JSON) in before;
    assert Holds(digest, after, Versioned(version, name), digest(o.content));
  }

  /** One attempt moves on while the store grows by at most one versioned key. */
  lemma VersionedPutKeeps(digest: Digest, s: State, id: int, phase: Phase, key: Key, file: Content)
    requires Inv(digest, s) && id in s.attempts && key.Versioned?
    requires AttemptOk(digest, Upload1(digest, s.store, key, file), s.attempts[id].(phase := phase))
    ensures Inv(digest, Move(s, id, phase).(store := Upload1(digest, s.store, key, file)))
  {
    var after := Upload1(digest, s.store, key, file);
    forall i | i in s.attempts ensures AttemptOk(digest, after, s.attempts[i]) {
      AttemptStays(digest, s.store, after, s.attempts[i]);
    }
    forall k | k in after && k.Channel? ensures ChannelOk(digest, after, after[k]) {
      ChannelStays(digest, s.store, after, s.store[k]);
    }
    forall k | k in after && k.Installer? ensures InstallerOk(digest, after, k.name, after[k]) {
      InstallerStays(digest, s.store, after, k.name, s.store[k]);
    }
  }

  /** One attempt moves on while a mutable key is written. */
  lemma MutablePutKeeps(digest: Digest, s: State, id: int, phase: Phase, key: Key, file: Content)
    requires Inv(digest, s) && id in s.attempts && !key.Versioned?
    requires var o := Object(file, digest(file).sha256);
             (key.Channel? ==> ChannelOk(digest, s.store, o)) && (key.Installer? ==> InstallerOk(digest, s.store, key.name, o))
    requires AttemptOk(digest, s.store, s.attempts[id].(phase := phase))
    ensures Inv(digest, Move(s, id, phase).(store := s.store[key := Object(file, digest(file).sha256)]))
  {
    var o := Object(file, digest(file).sha256);
    var after := s.store[key := o];
    AttemptStays(digest, s.store, after, s.attempts[id].(phase := phase));
    forall i | i in s.attempts ensures AttemptOk(digest, after, s.attempts[i]) {
      AttemptStays(digest, s.store, after, s.attempts[i]);
    }
    forall k | k in after && k.Channel? ensures ChannelOk(digest, after, after[k]) {
      ChannelStays(digest, s.store, after, if k == key then o else s.store[k]);
    }
    forall k | k in after && k.Installer? ensures InstallerOk(digest, after, k.name, after[k]) {
      InstallerStays(digest, s.store, after, k.name, if k == key then o else s.store[k]);
    }
  }

  /** One attempt moves on, or is dropped, without touching the store. */
  lemma MoveKeeps(digest: Digest, s: State, id: int, phase: Phase)
    requires Inv(digest, s) && id in s.attempts && AttemptOk(digest, s.store, s.attempts[id].(phase := phase))
    ensures Inv(digest, Move(s, id, phase))
  {
  }

  lemma DropKeeps(digest: Digest, s: State, id: int)
    requires Inv(digest, s)
    ensures Inv(digest, Drop(s, id))
  {
  }

  // ---- the steps

  lemma {:induction false} SumAt(assets: seq<Asset>, i: nat)
    requires i < |assets| && forall j, k | 0 <= j < k < |assets| :: assets[j].name != assets[k].name
    ensures HasAsset(assets, assets[i].name) && SumOf(assets, assets[i].name) == assets[i].sum
    decreases |assets|
  {
    if i > 0 {
      SumAt(assets[1..], i - 1);
      assert assets[0].name != assets[i].name;
    }
  }

  /** The metadata an attempt writes lists what it has verified to be stored. */
  lemma PointsAtStored(digest: Digest, store: Store, t: Attempt)
    requires AttemptOk(digest, store, t) && t.phase.Pointing?
    ensures ChannelOk(digest, store, Object(MetadataOf(t), digest(MetadataOf(t)).sha256))
  {
    forall i | 0 <= i < |t.assets|
      ensures Versioned(t.version, t.assets[i].name) in store
      ensures store[Versioned(t.version, t.assets[i].name)].sha256 == t.assets[i].sum.sha256
    {
      SumAt(t.assets, i);
      assert Stored(digest, store, t.version, t.assets, t.assets[i].name);
    }
  }

  lemma UploadKeeps(digest: Digest, s: State, a: Action)
    requires Inv(digest, s) && Enabled(digest, s, a) && (a.Mirror? || a.Upload? || a.PutMetadata?)
    ensures Inv(digest, Step(digest, s, a)) && Keeps(s.store, Step(digest, s, a).store)
  {
    var t := s.attempts[a.id];
    var u := Step(digest, s, a);
    assert AttemptOk(digest, s.store, t);
    AttemptStays(digest, s.store, u.store, t);
    var key := Versioned(t.version, if a.PutMetadata? then RELEASE_JSON else a.name);
    VersionedPutKeeps(digest, s, a.id, u.attempts[a.id].phase, key, if a.PutMetadata? then MetadataOf(t) else a.file);
  }

  /** One attempt moves on to a phase it has verified, or is dropped. */
  lemma CheckedKeeps(digest: Digest, s: State, id: int, key: Key, sum: Sum, phase: Phase)
    requires Inv(digest, s) && id in s.attempts
    requires Holds(digest, s.store, key, sum) ==> AttemptOk(digest, s.store, s.attempts[id].(phase := phase))
    ensures Inv(digest, Checked(digest, s, id, key, sum, phase)) && Checked(digest, s, id, key, sum, phase).store == s.store
  {
    if Holds(digest, s.store, key, sum) {
      MoveKeeps(digest, s, id, phase);
    } else {
      DropKeeps(digest, s, id);
    }
  }

  lemma FindKeeps(digest: Digest, s: State, id: int, name: string)
    requires Inv(digest, s) && Enabled(digest, s, Find(id, name))
    ensures Inv(digest, Step(digest, s, Find(id, name))) && Step(digest, s, Find(id, name)).store == s.store
  {
    var t := s.attempts[id];
    var key := Versioned(t.version, name);
    assert AttemptOk(digest, s.store, t);
    if key !in s.store {
      MoveKeeps(digest, s, id, Finding(t.phase.left - {name}, t.phase.found));
    } else {
      CheckedKeeps(digest, s, id, key, SumOf(t.assets, name), Finding(t.phase.left - {name}, t.phase.found + {name}));
    }
  }

  lemma VerifyUploadKeeps(digest: Digest, s: State, id: int, name: string)
    requires Inv(digest, s) && Enabled(digest, s, VerifyUpload(id, name))
    ensures Inv(digest, Step(digest, s, VerifyUpload(id, name))) && Step(digest, s, VerifyUpload(id, name)).store == s.store
  {
    var t := s.attempts[id];
    assert AttemptOk(digest, s.store, t);
    CheckedKeeps(digest, s, id, Versioned(t.version, name), SumOf(t.assets, name), Uploading(t.phase.left, t.phase.sent - {name}));
  }

  lemma VerifyMetadataKeeps(digest: Digest, s: State, id: int)
    requires Inv(digest, s) && Enabled(digest, s, VerifyMetadata(id))
    ensures Inv(digest, Step(digest, s, VerifyMetadata(id))) && Step(digest, s, VerifyMetadata(id)).store == s.store
  {
    var t := s.attempts[id];
    assert AttemptOk(digest, s.store, t);
    if InstallersPresent(t) {
      CheckedKeeps(digest, s, id, Versioned(t.version, RELEASE_JSON), digest(MetadataOf(t)),
                   Installing(if t.prerelease then [] else INSTALLERS, false));
    } else {
      DropKeeps(digest, s, id);
    }
  }

  lemma VerifyPointerKeeps(digest: Digest, s: State, a: Action)
    requires Inv(digest, s) && Enabled(digest, s, a) && (a.VerifyInstaller? || a.VerifyChannel?)
    ensures Inv(digest, Step(digest, s, a)) && Step(digest, s, a).store == s.store
  {
    var t := s.attempts[a.id];
    var name := t.phase.todo[0];
    assert AttemptOk(digest, s.store, t);
    if a.VerifyInstaller? {
      CheckedKeeps(digest, s, a.id, Installer(name), SumOf(t.assets, name), Installing(t.phase.todo[1..], false));
    } else {
      CheckedKeeps(digest, s, a.id, Channel(name), digest(MetadataOf(t)), Pointing(t.phase.todo[1..], false));
    }
  }

  lemma InstallerKeeps(digest: Digest, s: State, a: Action)
    requires Inv(digest, s) && Enabled(digest, s, a) && a.PutInstaller?
    ensures Inv(digest, Step(digest, s, a)) && Keeps(s.store, Step(digest, s, a).store)
  {
    var t := s.attempts[a.id];
    var name := t.phase.todo[0];
    assert AttemptOk(digest, s.store, t);
    assert name in Names(t.assets) && Stored(digest, s.store, t.version, t.assets, name);
    assert Holds(digest, s.store, Versioned(t.version, name), digest(a.file));
    assert InstallerOk(digest, s.store, name, Object(a.file, digest(a.file).sha256));
    MutablePutKeeps(digest, s, a.id, Installing(t.phase.todo, true), Installer(name), a.file);
  }

  lemma ChannelKeeps(digest: Digest, s: State, a: Action)
    requires Inv(digest, s) && Enabled(digest, s, a) && a.PutChannel?
    ensures Inv(digest, Step(digest, s, a)) && Keeps(s.store, Step(digest, s, a).store)
  {
    var t := s.attempts[a.id];
    assert AttemptOk(digest, s.store, t);
    PointsAtStored(digest, s.store, t);
    MutablePutKeeps(digest, s, a.id, Pointing(t.phase.todo, true), Channel(t.phase.todo[0]), MetadataOf(t));
  }

  lemma PhaseKeeps(digest: Digest, s: State, a: Action)
    requires Inv(digest, s) && Enabled(digest, s, a) && (a.BeginUploads? || a.EndUploads? || a.EndInstallers?)
    ensures Inv(digest, Step(digest, s, a)) && Step(digest, s, a).store == s.store
  {
    assert AttemptOk(digest, s.store, s.attempts[a.id]);
    MoveKeeps(digest, s, a.id, Step(digest, s, a).attempts[a.id].phase);
  }

  lemma StartKeeps(digest: Digest, s: State, a: Action)
    requires Inv(digest, s) && Enabled(digest, s, a) && a.Start?
    ensures Inv(digest, Step(digest, s, a)) && Step(digest, s, a).store == s.store
  {
  }

  lemma StepKeeps(digest: Digest, s: State, a: Action)
    requires Inv(digest, s) && Enabled(digest, s, a)
    ensures Inv(digest, Step(digest, s, a)) && Keeps(s.store, Step(digest, s, a).store)
  {
    match a
    case Start(_, _) => StartKeeps(digest, s, a);
    case Find(id, name) => FindKeeps(digest, s, id, name);
    case VerifyUpload(id, name) => VerifyUploadKeeps(digest, s, id, name);
    case VerifyMetadata(id) => VerifyMetadataKeeps(digest, s, id);
    case PutInstaller(_, _) => InstallerKeeps(digest, s, a);
    case PutChannel(_) => ChannelKeeps(digest, s, a);
    case Crash(id) => DropKeeps(digest, s, id);
    case _ => LaterKeeps(digest, s, a);
  }

  lemma LaterKeeps(digest: Digest, s: State, a: Action)
    requires Inv(digest, s) && Enabled(digest, s, a)
    requires a.Mirror? || a.Upload? || a.PutMetadata? || a.VerifyInstaller? || a.VerifyChannel?
             || a.BeginUploads? || a.EndUploads? || a.EndInstallers?
    ensures Inv(digest, Step(digest, s, a)) && Keeps(s.store, Step(digest, s, a).store)
  {
    if a.Mirror? || a.Upload? || a.PutMetadata? {
      UploadKeeps(digest, s, a);
    } else if a.VerifyInstaller? || a.VerifyChannel? {
      VerifyPointerKeeps(digest, s, a);
    } else {
      PhaseKeeps(digest, s, a);
    }
  }

  // ---- the results

  /** A store without channel or installer keys, whose objects carry their own checksums, is
      consistent; the results hold from any consistent store on. */
  lemma VersionedIsConsistent(digest: Digest, store: Store)
    requires Honest(digest, store) && forall key | key in store :: key.Versioned?
    ensures Inv(digest, State(store, map[]))
  {
  }

  lemma {:induction false} RunKeeps(digest: Digest, s: State, actions: seq<Action>)
    requires Inv(digest, s) && Run(digest, s, actions).Some?
    ensures Inv(digest, Run(digest, s, actions).value)
  {
    if actions != [] {
      var before := actions[..|actions| - 1];
      RunKeeps(digest, s, before);
      StepKeeps(digest, Run(digest, s, before).value, actions[|actions| - 1]);
    }
  }

  /** In every run, every channel agrees with the stored metadata of its version and every
      asset it lists is stored with the listed checksum. */
  lemma ChannelsAlwaysConsistent(digest: Digest, s: State, actions: seq<Action>, channel: string)
    requires Inv(digest, s) && Run(digest, s, actions).Some?
    ensures var store := Run(digest, s, actions).value.store;
            Channel(channel) in store ==> ChannelOk(digest, store, store[Channel(channel)])
  {
    RunKeeps(digest, s, actions);
  }

  /** With a collision-free digest the stored metadata is the channel's content itself. */
  lemma ChannelEqualsReleaseJson(digest: Digest, s: State, actions: seq<Action>, channel: string)
    requires Inv(digest, s) && Run(digest, s, actions).Some?
    requires forall c, d | digest(c) == digest(d) :: c == d
    ensures var store := Run(digest, s, actions).value.store;
            Channel(channel) in store ==>
              var content := store[Channel(channel)].content;
              && content.Metadata? && Versioned(content.version, RELEASE_JSON) in store
              && store[Versioned(content.version, RELEASE_JSON)].content == content
  {
    RunKeeps(digest, s, actions);
    var store := Run(digest, s, actions).value.store;
    if Channel(channel) in store {
      var content := store[Channel(channel)].content;
      assert ChannelOk(digest, store, store[Channel(channel)]);
      assert digest(store[Versioned(content.version, RELEASE_JSON)].content) == digest(content);
    }
  }

  /** Each installer alias is the stored asset of some release whose metadata is published. */
  lemma InstallersAlwaysConsistent(digest: Digest, s: State, actions: seq<Action>, name: string)
    requires Inv(digest, s) && Run(digest, s, actions).Some?
    ensures var store := Run(digest, s, actions).value.store;
            Installer(name) in store ==> InstallerOk(digest, store, name, store[Installer(name)])
  {
    RunKeeps(digest, s, actions);
  }

  /** Whatever follows a run, its versioned objects stay as they are. */
  lemma {:induction false} VersionedForever(digest: Digest, s: State, first: seq<Action>, more: seq<Action>)
    requires Inv(digest, s) && Run(digest, s, first + more).Some?
    ensures Run(digest, s, first).Some?
    ensures Keeps(Run(digest, s, first).value.store, Run(digest, s, first + more).value.store)
    decreases |more|
  {
    if more == [] {
      assert first + more == first;
    } else {
      var all, before := first + more, more[..|more| - 1];
      assert all[..|all| - 1] == first + before;
      VersionedForever(digest, s, first, before);
      RunKeeps(digest, s, first + before);
      StepKeeps(digest, Run(digest, s, first + before).value, all[|all| - 1]);
    }
  }

  /** So what a channel once pointed at stays valid forever, even after the channel moves on. */
  lemma PointedAtForever(digest: Digest, s: State, first: seq<Action>, more: seq<Action>, channel: string)
    requires Inv(digest, s) && Run(digest, s, first + more).Some?
    requires Run(digest, s, first).Some? && Channel(channel) in Run(digest, s, first).value.store
    ensures ChannelOk(digest, Run(digest, s, first + more).value.store, Run(digest, s, first).value.store[Channel(channel)])
  {
    VersionedForever(digest, s, first, more);
    RunKeeps(digest, s, first);
    ChannelStays(digest, Run(digest, s, first).value.store, Run(digest, s, first + more).value.store,
                 Run(digest, s, first).value.store[Channel(channel)]);
  }
}
