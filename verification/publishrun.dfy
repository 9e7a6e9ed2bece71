/** One finalize attempt that runs alone: when it succeeds, what it leaves in the store,
    and that rerunning it after a crash at any point leads to the same store. */
module PublishRun {
  import opened Text
  import opened Publish
  import opened PublishProofs

  datatype Remote = Verified | Missing | Mismatch

  /** A published asset as the run reports it. */
  datatype Entry = Entry(key: Key, sum: Sum)

  /** What a finalize run works from; `files` are the downloads that succeeded. */
  datatype Plan = Plan(version: string, assets: seq<Asset>, files: map<string, Content>, latest: bool, prerelease: bool)

  class Bucket {
    var objects: Store

    constructor (objects: Store)
      ensures this.objects == objects
    {
      this.objects := objects;
    }

    method PutObject(digest: Digest, key: Key, file: Content)
      modifies this
      ensures objects == old(objects)[key := Object(file, digest(file).sha256)]
    {
      objects := objects[key := Object(file, digest(file).sha256)];
    }

    method PutNoOverwrite(digest: Digest, key: Key, file: Content)
      modifies this
      ensures objects == Upload1(digest, old(objects), key, file)
    {
      if key !in objects {
        objects := objects[key := Object(file, digest(file).sha256)];
      }
    }

    method VerifyRemote(digest: Digest, key: Key, sum: Sum) returns (r: Remote)
      ensures r.Verified? <==> Holds(digest, objects, key, sum)
      ensures r.Missing? <==> key !in objects
    {
      if key !in objects {
        return Missing;
      }
      r := if digest(objects[key].content).size == sum.size && objects[key].sha256 == sum.sha256 then Verified else Mismatch;
    }
  }

  function EntryOf(version: string, a: Asset): Entry {
    Entry(Versioned(version, a.name), a.sum)
  }

  function EntriesOf(version: string, assets: seq<Asset>): (es: seq<Entry>)
    ensures |es| == |assets|
  {
    seq(|assets|, i requires 0 <= i < |assets| => EntryOf(version, assets[i]))
  }

  /** Results arrive as uploads complete, in any `order`; the list returned does not show it. */
  method CollectResults(version: string, assets: seq<Asset>, order: seq<Asset>) returns (published: seq<Entry>)
    requires forall i | 0 <= i < |assets| :: assets[i] in order
    requires forall i | 0 <= i < |order| :: order[i] in assets
    requires forall i, j | 0 <= i < j < |assets| :: assets[i].name != assets[j].name
    ensures published == EntriesOf(version, assets)
  {
    var byName: map<string, Entry> := map[];
    var i := 0;
    while i < |order|
      invariant 0 <= i <= |order|
      invariant forall a | a in assets && a in order[..i] :: a.name in byName && byName[a.name] == EntryOf(version, a)
    {
      assert order[..i + 1] == order[..i] + [order[i]];
      byName := byName[order[i].name := EntryOf(version, order[i])];
      i := i + 1;
    }
    assert order[..i] == order;
    published := [];
    var j := 0;
    while j < |assets|
      invariant 0 <= j <= |assets| && published == EntriesOf(version, assets)[..j]
    {
      assert assets[j] in assets && assets[j] in order;
      published := published + [byName[assets[j].name]];
      j := j + 1;
    }
  }

  /** The assets that were not found, in release order. */
  function Remaining(assets: seq<Asset>, found: set<string>): (rest: seq<Asset>)
    ensures forall a :: a in rest <==> a in assets && a.name !in found
  {
    if assets == [] then []
    else
      var n := |assets| - 1;
      assert assets == assets[..n] + [assets[n]];
      Remaining(assets[..n], found) + if assets[n].name in found then [] else [assets[n]]
  }

  /** The list a run reports: what it found and what it uploaded, in release order. */
  method MergePublished(version: string, assets: seq<Asset>, found: set<string>, added: seq<Entry>) returns (published: seq<Entry>)
    requires forall i, j | 0 <= i < j < |assets| :: assets[i].name != assets[j].name
    requires added == EntriesOf(version, Remaining(assets, found))
    ensures published == EntriesOf(version, assets)
  {
    ghost var rest := Remaining(assets, found);
    var byName: map<string, Entry> := map[];
    for i := 0 to |added|
      invariant forall a | a in assets && a in rest[..i] :: a.name in byName && byName[a.name] == EntryOf(version, a)
    {
      assert rest[..i + 1] == rest[..i] + [rest[i]] && rest[i] in rest;
      byName := byName[added[i].key.name := added[i]];
    }
    assert rest[..|added|] == rest;
    published := [];
    for j := 0 to |assets|
      invariant published == EntriesOf(version, assets)[..j]
    {
      assert assets[j] in assets;
      published := published + [if assets[j].name in found then EntryOf(version, assets[j]) else byName[assets[j].name]];
    }
  }

  // ---- the store a run leads to

  function Sealed(digest: Digest, file: Content): Object {
    Object(file, digest(file).sha256)
  }

  /** The asset objects of these names, as an upload creates them. */
  function AssetObjects(digest: Digest, p: Plan, names: set<string>): Store {
    map n | n in names && n in p.files :: Versioned(p.version, n) := Sealed(digest, p.files[n])
  }

  function MetadataFile(p: Plan): Content {
    Metadata(p.version, Listing(p.assets))
  }

  /** Everything the run creates under the version unless it is there already. */
  function Created(digest: Digest, p: Plan): Store {
    AssetObjects(digest, p, Names(p.assets))[Versioned(p.version, RELEASE_JSON) := Sealed(digest, MetadataFile(p))]
  }

  function ChannelNames(p: Plan): set<string> {
    (if p.latest then {"latest"} else {}) + (if p.prerelease then {"prerelease"} else {})
  }

  function InstallerNames(p: Plan): set<string> {
    if p.prerelease then {} else {INSTALLERS[0], INSTALLERS[1]}
  }

  function InstallerObjects(digest: Digest, p: Plan, names: set<string>): Store {
    map n | n in names && n in p.files :: Installer(n) := Sealed(digest, p.files[n])
  }

  function ChannelObjects(digest: Digest, p: Plan, names: set<string>): Store {
    map c | c in names :: Channel(c) := Sealed(digest, MetadataFile(p))
  }

  /** The mutable objects of these installers and channels. */
  function MovedTo(digest: Digest, p: Plan, installers: set<string>, channels: set<string>): Store {
    InstallerObjects(digest, p, installers) + ChannelObjects(digest, p, channels)
  }

  /** The mutable keys the run overwrites. */
  function Moved(digest: Digest, p: Plan): Store {
    MovedTo(digest, p, InstallerNames(p), ChannelNames(p))
  }

  /** `created` where nothing was, `moved` in any case. */
  function Overlay(created: Store, objects: Store, moved: Store): Store {
    created + objects + moved
  }

  function Published(digest: Digest, objects: Store, p: Plan): Store {
    Overlay(Created(digest, p), objects, Moved(digest, p))
  }

  /** The file is downloaded and is what the release says. */
  predicate Intact(digest: Digest, p: Plan, name: string) {
    name in p.files && HasAsset(p.assets, name) && digest(p.files[name]) == SumOf(p.assets, name)
  }

  /** The asset is stored as released, or it is not stored and its download is intact. */
  predicate AssetReady(digest: Digest, objects: Store, p: Plan, n: string)
    requires HasAsset(p.assets, n)
  {
    var key := Versioned(p.version, n);
    if key in objects then Matches(digest, objects[key], SumOf(p.assets, n)) else Intact(digest, p, n)
  }

  predicate MetadataFits(digest: Digest, objects: Store, p: Plan) {
    var key := Versioned(p.version, RELEASE_JSON);
    key in objects ==> Matches(digest, objects[key], digest(MetadataFile(p)))
  }

  predicate AssetsReady(digest: Digest, objects: Store, p: Plan) {
    forall n | n in Names(p.assets) && HasAsset(p.assets, n) :: AssetReady(digest, objects, p, n)
  }

  predicate InstallersIntact(digest: Digest, p: Plan) {
    forall n | n in InstallerNames(p) :: Intact(digest, p, n)
  }

  /** When a run alone succeeds: nothing under the version conflicts with the release, and
      every file it needs is intact. */
  predicate Publishable(digest: Digest, objects: Store, p: Plan) {
    AssetsReady(digest, objects, p) && MetadataFits(digest, objects, p) && InstallersIntact(digest, p)
  }

  // ---- rerunning after a crash

  /** Nothing is lost, and every object is an old one, a created one where nothing was,
      or a moved one. */
  predicate Between(created: Store, before: Store, mid: Store, moved: Store) {
    && before.Keys <= mid.Keys
    && forall key | key in mid ::
         || (key in before && mid[key] == before[key])
         || (key !in before && key in created && mid[key] == created[key])
         || (key in moved && mid[key] == moved[key])
  }

  lemma OverlayAbsorbs(created: Store, before: Store, mid: Store, moved: Store)
    requires Between(created, before, mid, moved)
    ensures Overlay(created, mid, moved) == Overlay(created, before, moved)
  {
  }

  /** A store that some prefix of a run of the plan may have left behind. */
  predicate Partial(digest: Digest, before: Store, mid: Store, p: Plan) {
    Between(Created(digest, p), before, mid, Moved(digest, p))
  }

  lemma CreatedMatches(digest: Digest, p: Plan, name: string)
    requires name in Names(p.assets) && Intact(digest, p, name) && ValidAssets(p.assets)
    ensures var key := Versioned(p.version, name);
            key in Created(digest, p) && Matches(digest, Created(digest, p)[key], SumOf(p.assets, name))
  {
  }

  lemma MovedIsMutable(digest: Digest, p: Plan, key: Key)
    requires key in Moved(digest, p)
    ensures !key.Versioned?
  {
  }

  lemma PartialVersioned(digest: Digest, before: Store, mid: Store, p: Plan, key: Key)
    requires Partial(digest, before, mid, p) && key in mid && key.Versioned?
    ensures if key in before then mid[key] == before[key] else key in Created(digest, p) && mid[key] == Created(digest, p)[key]
  {
    if key in Moved(digest, p) {
      MovedIsMutable(digest, p, key);
    }
  }

  lemma PartialAsset(digest: Digest, before: Store, mid: Store, p: Plan, n: string)
    requires ValidAssets(p.assets) && Publishable(digest, before, p) && Partial(digest, before, mid, p)
    requires n in Names(p.assets) && HasAsset(p.assets, n)
    ensures AssetReady(digest, mid, p, n)
  {
    assert AssetReady(digest, before, p, n);
    var key := Versioned(p.version, n);
    if key in mid {
      PartialVersioned(digest, before, mid, p, key);
      if key !in before {
        CreatedMatches(digest, p, n);
      }
    }
  }

  lemma PartialMetadata(digest: Digest, before: Store, mid: Store, p: Plan)
    requires MetadataFits(digest, before, p) && Partial(digest, before, mid, p)
    ensures MetadataFits(digest, mid, p)
  {
    var key := Versioned(p.version, RELEASE_JSON);
    if key in mid {
      PartialVersioned(digest, before, mid, p, key);
    }
  }

  /** A crashed run can always be finished by running it again, and the store it then
      leads to is the one an undisturbed run would have produced. */
  lemma RerunConverges(digest: Digest, before: Store, mid: Store, p: Plan)
    requires ValidAssets(p.assets) && Publishable(digest, before, p) && Partial(digest, before, mid, p)
    ensures Publishable(digest, mid, p)
    ensures Published(digest, mid, p) == Published(digest, before, p)
  {
    forall n | n in Names(p.assets) && HasAsset(p.assets, n) ensures AssetReady(digest, mid, p, n) {
      PartialAsset(digest, before, mid, p, n);
    }
    PartialMetadata(digest, before, mid, p);
    OverlayAbsorbs(Created(digest, p), before, mid, Moved(digest, p));
  }

  lemma PublishedVersioned(digest: Digest, objects: Store, p: Plan, key: Key)
    requires key.Versioned? && (key in objects || key in Created(digest, p))
    ensures key in Published(digest, objects, p)
    ensures Published(digest, objects, p)[key] == if key in objects then objects[key] else Created(digest, p)[key]
  {
    if key in Moved(digest, p) {
      MovedIsMutable(digest, p, key);
    }
  }

  lemma PublishedAsset(digest: Digest, objects: Store, p: Plan, i: nat)
    requires ValidAssets(p.assets) && Publishable(digest, objects, p) && i < |p.assets|
    ensures Holds(digest, Published(digest, objects, p), Versioned(p.version, p.assets[i].name), p.assets[i].sum)
  {
    var n := p.assets[i].name;
    SumAt(p.assets, i);
    assert n in Names(p.assets) && AssetReady(digest, objects, p, n);
    if Versioned(p.version, n) !in objects {
      CreatedMatches(digest, p, n);
    }
    PublishedVersioned(digest, objects, p, Versioned(p.version, n));
  }

  lemma PublishedChannel(digest: Digest, objects: Store, p: Plan, channel: string)
    requires channel in ChannelNames(p)
    ensures Channel(channel) in Published(digest, objects, p)
    ensures Published(digest, objects, p)[Channel(channel)] == Sealed(digest, MetadataFile(p))
  {
    assert Channel(channel) in Moved(digest, p);
  }

  lemma ListedAreStored(digest: Digest, store: Store, p: Plan)
    requires Holds(digest, store, Versioned(p.version, RELEASE_JSON), digest(MetadataFile(p)))
    requires forall i | 0 <= i < |p.assets| :: Holds(digest, store, Versioned(p.version, p.assets[i].name), p.assets[i].sum)
    ensures ChannelOk(digest, store, Sealed(digest, MetadataFile(p)))
  {
  }

  lemma PublishedMetadata(digest: Digest, objects: Store, p: Plan)
    requires MetadataFits(digest, objects, p)
    ensures Holds(digest, Published(digest, objects, p), Versioned(p.version, RELEASE_JSON), digest(MetadataFile(p)))
  {
    PublishedVersioned(digest, objects, p, Versioned(p.version, RELEASE_JSON));
  }

  /** A successful run points every selected channel at metadata that is stored under the
      version, with every listed asset stored as listed. */
  lemma PublishedIsConsistent(digest: Digest, objects: Store, p: Plan, channel: string)
    requires ValidAssets(p.assets) && Publishable(digest, objects, p) && channel in ChannelNames(p)
    ensures var store := Published(digest, objects, p);
            && Channel(channel) in store && store[Channel(channel)] == Sealed(digest, MetadataFile(p))
            && ChannelOk(digest, store, store[Channel(channel)])
  {
    PublishedChannel(digest, objects, p, channel);
    PublishedMetadata(digest, objects, p);
    forall i | 0 <= i < |p.assets|
      ensures Holds(digest, Published(digest, objects, p), Versioned(p.version, p.assets[i].name), p.assets[i].sum)
    {
      PublishedAsset(digest, objects, p, i);
    }
    ListedAreStored(digest, Published(digest, objects, p), p);
  }

  // ---- the run itself

  lemma AssetNames(assets: seq<Asset>, i: nat)
    requires ValidAssets(assets) && i < |assets|
    ensures assets[i].name in Names(assets) && HasAsset(assets, assets[i].name) && SumOf(assets, assets[i].name) == assets[i].sum
  {
    SumAt(assets, i);
  }

  /** find_published_assets: the names already stored as released, unless one conflicts. */
  method FindPublished(digest: Digest, bucket: Bucket, p: Plan) returns (ok: bool, found: set<string>)
    requires ValidAssets(p.assets)
    ensures ok <==> forall i | 0 <= i < |p.assets| ::
              var key := Versioned(p.version, p.assets[i].name);
              key in bucket.objects ==> Matches(digest, bucket.objects[key], p.assets[i].sum)
    ensures ok ==> found == set n | n in Names(p.assets) && Versioned(p.version, n) in bucket.objects
  {
    found := {};
    var i := 0;
    while i < |p.assets|
      invariant 0 <= i <= |p.assets|
      invariant forall j | 0 <= j < i ::
        var key := Versioned(p.version, p.assets[j].name);
        key in bucket.objects ==> Matches(digest, bucket.objects[key], p.assets[j].sum)
      invariant found == set n | n in Names(p.assets[..i]) && Versioned(p.version, n) in bucket.objects
    {
      var a := p.assets[i];
      assert Names(p.assets[..i + 1]) == Names(p.assets[..i]) + {a.name};
      var r := bucket.VerifyRemote(digest, Versioned(p.version, a.name), a.sum);
      if r.Mismatch? {
        return false, found;
      }
      if r.Verified? {
        found := found + {a.name};
      }
      i := i + 1;
    }
    assert p.assets[..i] == p.assets;
    ok := true;
  }

  lemma UploadOne(digest: Digest, objects: Store, p: Plan, done: set<string>, n: string)
    requires n in p.files && Versioned(p.version, n) !in objects
    ensures Upload1(digest, AssetObjects(digest, p, done) + objects, Versioned(p.version, n), p.files[n]) ==
            AssetObjects(digest, p, done + {n}) + objects
  {
  }

  lemma UploadedHolds(digest: Digest, objects: Store, p: Plan, done: set<string>, n: string)
    requires Intact(digest, p, n) && n in done && Versioned(p.version, n) !in objects
    ensures Holds(digest, AssetObjects(digest, p, done) + objects, Versioned(p.version, n), SumOf(p.assets, n))
  {
  }

  /** publish_assets for the assets not found: validate, put without overwrite, verify. */
  method UploadRemaining(digest: Digest, bucket: Bucket, p: Plan, found: set<string>) returns (ok: bool, done: set<string>)
    requires ValidAssets(p.assets)
    requires found == set n | n in Names(p.assets) && Versioned(p.version, n) in bucket.objects
    modifies bucket
    ensures ok <==> forall n | n in Names(p.assets) - found :: Intact(digest, p, n)
    ensures bucket.objects == AssetObjects(digest, p, done) + old(bucket.objects) && done <= Names(p.assets)
    ensures ok ==> done == Names(p.assets) - found
  {
    done := {};
    assert AssetObjects(digest, p, {}) + bucket.objects == bucket.objects;
    var i := 0;
    while i < |p.assets|
      invariant 0 <= i <= |p.assets|
      invariant done == Names(p.assets[..i]) - found && done <= Names(p.assets)
      invariant forall n | n in done :: Intact(digest, p, n)
      invariant bucket.objects == AssetObjects(digest, p, done) + old(bucket.objects)
    {
      var a := p.assets[i];
      AssetNames(p.assets, i);
      assert Names(p.assets[..i + 1]) == Names(p.assets[..i]) + {a.name};
      if a.name !in found {
        if a.name !in p.files || digest(p.files[a.name]) != a.sum {
          assert !Intact(digest, p, a.name);
          return false, done;
        }
        UploadOne(digest, old(bucket.objects), p, done, a.name);
        bucket.PutNoOverwrite(digest, Versioned(p.version, a.name), p.files[a.name]);
        done := done + {a.name};
        UploadedHolds(digest, old(bucket.objects), p, done, a.name);
        var r := bucket.VerifyRemote(digest, Versioned(p.version, a.name), a.sum);
        assert r.Verified?;
      }
      i := i + 1;
    }
    assert p.assets[..i] == p.assets;
    ok := true;
  }

  lemma UploadsArePartial(digest: Digest, objects: Store, p: Plan, done: set<string>)
    requires ValidAssets(p.assets) && done <= Names(p.assets)
    ensures Partial(digest, objects, AssetObjects(digest, p, done) + objects, p)
  {
  }

  lemma SameUnder(a: Store, b: Store, objects: Store)
    requires forall key | key in a :: key in b && b[key] == a[key]
    requires forall key | key in b :: key in a || key in objects
    ensures a + objects == b + objects
  {
  }

  lemma PutUnder(b: Store, objects: Store, key: Key, o: Object)
    requires key !in b
    ensures PutNew(b + objects, key, o) == b[key := o] + objects
  {
  }

  lemma VersionComplete(digest: Digest, objects: Store, p: Plan, remaining: set<string>)
    requires ValidAssets(p.assets) && remaining <= Names(p.assets)
    requires forall n | n in Names(p.assets) - remaining :: Versioned(p.version, n) in objects
    ensures Upload1(digest, AssetObjects(digest, p, remaining) + objects, Versioned(p.version, RELEASE_JSON), MetadataFile(p)) ==
            Created(digest, p) + objects
  {
    var a, b := AssetObjects(digest, p, remaining), AssetObjects(digest, p, Names(p.assets));
    SameUnder(a, b, objects);
    assert RELEASE_JSON !in Names(p.assets);
    PutUnder(b, objects, Versioned(p.version, RELEASE_JSON), Sealed(digest, MetadataFile(p)));
  }

  lemma SubmapIsBetween(created: Store, before: Store, part: Store, moved: Store)
    requires forall key | key in part :: key in moved && moved[key] == part[key]
    ensures Between(created, before, created + before + part, moved)
  {
  }

  lemma MovesAreSubmap(digest: Digest, p: Plan, installers: set<string>, channels: set<string>, key: Key)
    requires installers <= InstallerNames(p) && channels <= ChannelNames(p) && key in MovedTo(digest, p, installers, channels)
    ensures key in Moved(digest, p) && Moved(digest, p)[key] == MovedTo(digest, p, installers, channels)[key]
  {
  }

  lemma MovesArePartial(digest: Digest, objects: Store, p: Plan, installers: set<string>, channels: set<string>)
    requires installers <= InstallerNames(p) && channels <= ChannelNames(p)
    ensures Partial(digest, objects, Created(digest, p) + objects + MovedTo(digest, p, installers, channels), p)
  {
    var part, moved := MovedTo(digest, p, installers, channels), Moved(digest, p);
    forall key | key in part ensures key in moved && moved[key] == part[key] {
      MovesAreSubmap(digest, p, installers, channels, key);
    }
    SubmapIsBetween(Created(digest, p), objects, part, moved);
  }

  lemma UpdateRight(base: Store, part: Store, key: Key, o: Object)
    ensures (base + part)[key := o] == base + part[key := o]
  {
  }

  lemma OneMoreInstaller(digest: Digest, p: Plan, names: set<string>, n: string)
    requires n in p.files
    ensures InstallerObjects(digest, p, names)[Installer(n) := Sealed(digest, p.files[n])] == InstallerObjects(digest, p, names + {n})
  {
  }

  lemma OneMoreChannel(digest: Digest, p: Plan, names: set<string>, c: string)
    ensures ChannelObjects(digest, p, names)[Channel(c) := Sealed(digest, MetadataFile(p))] == ChannelObjects(digest, p, names + {c})
  {
  }

  lemma NoChannels(digest: Digest, p: Plan, installers: set<string>)
    ensures MovedTo(digest, p, installers, {}) == InstallerObjects(digest, p, installers)
  {
    assert ChannelObjects(digest, p, {}) == map[];
  }

  lemma MoveOneInstaller(digest: Digest, p: Plan, base: Store, installers: set<string>, n: string)
    requires n in p.files
    ensures (base + MovedTo(digest, p, installers, {}))[Installer(n) := Sealed(digest, p.files[n])] ==
            base + MovedTo(digest, p, installers + {n}, {})
  {
    NoChannels(digest, p, installers);
    NoChannels(digest, p, installers + {n});
    OneMoreInstaller(digest, p, installers, n);
    UpdateRight(base, InstallerObjects(digest, p, installers), Installer(n), Sealed(digest, p.files[n]));
  }

  lemma MoveOneChannel(digest: Digest, p: Plan, base: Store, installers: set<string>, channels: set<string>, c: string)
    ensures (base + MovedTo(digest, p, installers, channels))[Channel(c) := Sealed(digest, MetadataFile(p))] ==
            base + MovedTo(digest, p, installers, channels + {c})
  {
    OneMoreChannel(digest, p, channels, c);
    UpdateRight(base, MovedTo(digest, p, installers, channels), Channel(c), Sealed(digest, MetadataFile(p)));
    UpdateRight(InstallerObjects(digest, p, installers), ChannelObjects(digest, p, channels), Channel(c), Sealed(digest, MetadataFile(p)));
  }

  lemma NothingMoved(digest: Digest, p: Plan, base: Store)
    ensures base + MovedTo(digest, p, {}, {}) == base
  {
    NoChannels(digest, p, {});
    assert InstallerObjects(digest, p, {}) == map[];
  }

  /** publish_installers: each alias is validated, put and verified in turn. */
  method PublishInstallers(digest: Digest, bucket: Bucket, p: Plan, ghost base: Store) returns (ok: bool, ghost done: set<string>)
    requires ValidAssets(p.assets) && !p.prerelease && bucket.objects == base
    modifies bucket
    ensures ok <==> InstallersIntact(digest, p)
    ensures done <= InstallerNames(p) && bucket.objects == base + MovedTo(digest, p, done, {})
    ensures ok ==> done == InstallerNames(p)
  {
    done := {};
    NothingMoved(digest, p, base);
    assert INSTALLERS[0] in InstallerNames(p) && INSTALLERS[1] in InstallerNames(p);
    if !HasAsset(p.assets, INSTALLERS[0]) || !HasAsset(p.assets, INSTALLERS[1]) {
      return false, done;
    }
    var i := 0;
    while i < |INSTALLERS|
      invariant 0 <= i <= |INSTALLERS| && done <= InstallerNames(p) && bucket.objects == base + MovedTo(digest, p, done, {})
      invariant forall j | 0 <= j < i :: Intact(digest, p, INSTALLERS[j]) && INSTALLERS[j] in done
    {
      var n := INSTALLERS[i];
      if n !in p.files || digest(p.files[n]) != SumOf(p.assets, n) {
        assert n in InstallerNames(p) && !Intact(digest, p, n);
        return false, done;
      }
      MoveOneInstaller(digest, p, base, done, n);
      bucket.PutObject(digest, Installer(n), p.files[n]);
      done := done + {n};
      var r := bucket.VerifyRemote(digest, Installer(n), SumOf(p.assets, n));
      assert r.Verified?;
      i := i + 1;
    }
    assert done == InstallerNames(p) && Intact(digest, p, INSTALLERS[0]) && Intact(digest, p, INSTALLERS[1]);
    ok := true;
  }

  method PublishChannel(digest: Digest, bucket: Bucket, p: Plan, c: string, ghost base: Store, ghost installers: set<string>, ghost channels: set<string>)
    requires bucket.objects == base + MovedTo(digest, p, installers, channels)
    modifies bucket
    ensures bucket.objects == base + MovedTo(digest, p, installers, channels + {c})
  {
    MoveOneChannel(digest, p, base, installers, channels, c);
    bucket.PutObject(digest, Channel(c), MetadataFile(p));
    var r := bucket.VerifyRemote(digest, Channel(c), digest(MetadataFile(p)));
    assert r.Verified?;
  }

  /** Assets and metadata: everything under the version. */
  method PublishVersion(digest: Digest, bucket: Bucket, p: Plan) returns (ok: bool)
    requires ValidAssets(p.assets)
    modifies bucket
    ensures ok <==> AssetsReady(digest, old(bucket.objects), p) && MetadataFits(digest, old(bucket.objects), p)
    ensures ok ==> bucket.objects == Created(digest, p) + old(bucket.objects)
    ensures Partial(digest, old(bucket.objects), bucket.objects, p)
  {
    ghost var before := bucket.objects;
    var found;
    ok, found := FindPublished(digest, bucket, p);
    if !ok {
      ConflictBlocks(digest, before, p);
      return;
    }
    var done;
    ok, done := UploadRemaining(digest, bucket, p, found);
    UploadsArePartial(digest, before, p, done);
    ReadyAssets(digest, before, p, found);
    if !ok {
      return;
    }
    VersionComplete(digest, before, p, done);
    bucket.PutNoOverwrite(digest, Versioned(p.version, RELEASE_JSON), MetadataFile(p));
    NothingMoved(digest, p, Created(digest, p) + before);
    MovesArePartial(digest, before, p, {}, {});
    var r := bucket.VerifyRemote(digest, Versioned(p.version, RELEASE_JSON), digest(MetadataFile(p)));
    ok := r.Verified?;
  }

  /** Installers and channels: the mutable keys. */
  method MovePointers(digest: Digest, bucket: Bucket, p: Plan) returns (ok: bool, ghost installers: set<string>, ghost channels: set<string>)
    requires ValidAssets(p.assets)
    modifies bucket
    ensures ok <==> InstallersIntact(digest, p)
    ensures installers <= InstallerNames(p) && channels <= ChannelNames(p)
    ensures bucket.objects == old(bucket.objects) + MovedTo(digest, p, installers, channels)
    ensures ok ==> installers == InstallerNames(p) && channels == ChannelNames(p)
  {
    ghost var base := bucket.objects;
    ok, installers, channels := true, {}, {};
    NothingMoved(digest, p, base);
    if !p.prerelease {
      ok, installers := PublishInstallers(digest, bucket, p, base);
      if !ok {
        return;
      }
    }
    if p.latest {
      PublishChannel(digest, bucket, p, "latest", base, installers, channels);
      channels := channels + {"latest"};
    }
    if p.prerelease {
      PublishChannel(digest, bucket, p, "prerelease", base, installers, channels);
      channels := channels + {"prerelease"};
    }
  }

  /** The finalize stage of one run, alone. It succeeds exactly when the plan is publishable
      and then leaves the published store; when it stops early, what it leaves behind is
      a store from which the same run can be repeated. */
  method Finalize(digest: Digest, bucket: Bucket, p: Plan) returns (ok: bool)
    requires ValidAssets(p.assets)
    modifies bucket
    ensures ok <==> Publishable(digest, old(bucket.objects), p)
    ensures ok ==> bucket.objects == Published(digest, old(bucket.objects), p)
    ensures Partial(digest, old(bucket.objects), bucket.objects, p)
  {
    ghost var before := bucket.objects;
    ok := PublishVersion(digest, bucket, p);
    if ok {
      ghost var installers, channels;
      ok, installers, channels := MovePointers(digest, bucket, p);
      MovesArePartial(digest, before, p, installers, channels);
    }
  }

  lemma ConflictBlocks(digest: Digest, objects: Store, p: Plan)
    requires ValidAssets(p.assets)
    requires exists i | 0 <= i < |p.assets| ::
               var key := Versioned(p.version, p.assets[i].name);
               key in objects && !Matches(digest, objects[key], p.assets[i].sum)
    ensures !AssetsReady(digest, objects, p)
    ensures Partial(digest, objects, objects, p)
  {
    var i :| 0 <= i < |p.assets| && Versioned(p.version, p.assets[i].name) in objects
             && !Matches(digest, objects[Versioned(p.version, p.assets[i].name)], p.assets[i].sum);
    AssetNames(p.assets, i);
    assert !AssetReady(digest, objects, p, p.assets[i].name);
  }

  /** Once nothing conflicts, all assets are ready exactly when the missing ones are intact. */
  lemma ReadyAssets(digest: Digest, objects: Store, p: Plan, found: set<string>)
    requires ValidAssets(p.assets)
    requires forall i | 0 <= i < |p.assets| ::
               var key := Versioned(p.version, p.assets[i].name);
               key in objects ==> Matches(digest, objects[key], p.assets[i].sum)
    requires found == set n | n in Names(p.assets) && Versioned(p.version, n) in objects
    ensures AssetsReady(digest, objects, p) <==> forall n | n in Names(p.assets) - found :: Intact(digest, p, n)
  {
    forall i | 0 <= i < |p.assets|
      ensures HasAsset(p.assets, p.assets[i].name)
      ensures AssetReady(digest, objects, p, p.assets[i].name) <==> (p.assets[i].name in found || Intact(digest, p, p.assets[i].name))
    {
      AssetNames(p.assets, i);
    }
  }
}
