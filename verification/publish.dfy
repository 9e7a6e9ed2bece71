/** Mirroring releases to an object store by any number of concurrent, crash-prone,
    rerunnable attempts. Versioned keys are put without overwrite; channel and installer
    keys are mutable. */
module Publish {
  import opened Text

  const RELEASE_JSON := "release.json"
  const INSTALLERS := ["install.sh", "install.ps1"]

  datatype Listed = Listed(name: string, sha256: string)

  /** File contents: an asset's bytes, or the release metadata (JSON printing is one-to-one). */
  datatype Content = Bytes(bytes: seq<int>) | Metadata(version: string, assets: seq<Listed>)

  /** Size and SHA-256 of a file, as `stream_digest` returns them. */
  datatype Sum = Sum(size: nat, sha256: string)
  type Digest = Content -> Sum

  datatype Key = Versioned(version: string, name: string) | Channel(name: string) | Installer(name: string)

  /** A stored object with the checksum its upload recorded. */
  datatype Object = Object(content: Content, sha256: string)
  type Store = map<Key, Object>

  datatype Asset = Asset(name: string, sum: Sum)

  /** Where an attempt stands. Sets hold asset names: parallel uploads complete in any order. */
  datatype Phase =
    | Mirroring(left: set<string>)
    | Finding(left: set<string>, found: set<string>)
    | Uploading(left: set<string>, sent: set<string>)
    | MetadataReady
    | MetadataSent
    | Installing(todo: seq<string>, written: bool)
    | Pointing(todo: seq<string>, written: bool)

  datatype Attempt = Attempt(version: string, assets: seq<Asset>, latest: bool, prerelease: bool, phase: Phase)

  datatype State = State(store: Store, attempts: map<int, Attempt>)

  datatype Action =
    | Start(id: int, attempt: Attempt)
    | Mirror(id: int, name: string, file: Content)
    | Find(id: int, name: string)
    | BeginUploads(id: int)
    | Upload(id: int, name: string, file: Content)
    | VerifyUpload(id: int, name: string)
    | EndUploads(id: int)
    | PutMetadata(id: int)
    | VerifyMetadata(id: int)
    | PutInstaller(id: int, file: Content)
    | VerifyInstaller(id: int)
    | EndInstallers(id: int)
    | PutChannel(id: int)
    | VerifyChannel(id: int)
    | Crash(id: int)

  // ---- assets and metadata

  predicate HasAsset(assets: seq<Asset>, name: string) {
    exists i | 0 <= i < |assets| :: assets[i].name == name
  }

  /** What `get_release_metadata` accepts. */
  predicate ValidAssets(assets: seq<Asset>) {
    && assets != [] && !HasAsset(assets, RELEASE_JSON)
    && forall i, j | 0 <= i < j < |assets| :: assets[i].name != assets[j].name
  }

  function Names(assets: seq<Asset>): set<string> {
    set i | 0 <= i < |assets| :: assets[i].name
  }

  function SumOf(assets: seq<Asset>, name: string): Sum
    requires HasAsset(assets, name)
  {
    if assets[0].name == name then assets[0].sum else SumOf(assets[1..], name)
  }

  function Listing(assets: seq<Asset>): (l: seq<Listed>)
    ensures |l| == |assets|
    ensures forall i | 0 <= i < |l| :: l[i] == Listed(assets[i].name, assets[i].sum.sha256)
  {
    seq(|assets|, i requires 0 <= i < |assets| => Listed(assets[i].name, assets[i].sum.sha256))
  }

  function MetadataOf(a: Attempt): Content {
    Metadata(a.version, Listing(a.assets))
  }

  // ---- the store

  /** An object as `head-object` reports it. */
  predicate Matches(digest: Digest, o: Object, sum: Sum) {
    digest(o.content).size == sum.size && o.sha256 == sum.sha256
  }

  predicate Holds(digest: Digest, store: Store, key: Key, sum: Sum) {
    key in store && Matches(digest, store[key], sum)
  }

  function PutNew(store: Store, key: Key, o: Object): Store {
    if key in store then store else store[key := o]
  }

  function Upload1(digest: Digest, store: Store, key: Key, file: Content): Store {
    PutNew(store, key, Object(file, digest(file).sha256))
  }

  // ---- the steps

  function Drop(s: State, id: int): State {
    s.(attempts := s.attempts - {id})
  }

  function Move(s: State, id: int, phase: Phase): State
    requires id in s.attempts
  {
    s.(attempts := s.attempts[id := s.attempts[id].(phase := phase)])
  }

  /** Goes on to `phase` if the object is as expected, and fails the attempt otherwise. */
  function Checked(digest: Digest, s: State, id: int, key: Key, sum: Sum, phase: Phase): State
    requires id in s.attempts
  {
    if Holds(digest, s.store, key, sum) then Move(s, id, phase) else Drop(s, id)
  }

  predicate Enabled(digest: Digest, s: State, a: Action) {
    if a.Start? then
      && a.id !in s.attempts && ValidAssets(a.attempt.assets)
      && a.attempt.phase in {Mirroring(Names(a.attempt.assets)), Finding(Names(a.attempt.assets), {})}
    else
      a.id in s.attempts && var t := s.attempts[a.id]; var ph := t.phase;
      match a
      case Start(_, _) => false
      case Mirror(_, name, file) => ph.Mirroring? && name in ph.left && HasAsset(t.assets, name) && digest(file) == SumOf(t.assets, name)
      case Find(_, name) => ph.Finding? && name in ph.left && HasAsset(t.assets, name)
      case BeginUploads(_) => ph.Finding? && ph.left == {}
      case Upload(_, name, file) => ph.Uploading? && name in ph.left && HasAsset(t.assets, name) && digest(file) == SumOf(t.assets, name)
      case VerifyUpload(_, name) => ph.Uploading? && name in ph.sent && HasAsset(t.assets, name)
      case EndUploads(_) => ph.Uploading? && ph.left == {} && ph.sent == {}
      case PutMetadata(_) => ph.MetadataReady?
      case VerifyMetadata(_) => ph.MetadataSent?
      case PutInstaller(_, file) =>
        ph.Installing? && ph.todo != [] && !ph.written && HasAsset(t.assets, ph.todo[0]) && digest(file) == SumOf(t.assets, ph.todo[0])
      case VerifyInstaller(_) => ph.Installing? && ph.todo != [] && ph.written && HasAsset(t.assets, ph.todo[0])
      case EndInstallers(_) => ph.Installing? && ph.todo == []
      case PutChannel(_) => ph.Pointing? && ph.todo != [] && !ph.written
      case VerifyChannel(_) => ph.Pointing? && ph.todo != [] && ph.written
      case Crash(_) => true
  }

  /** Installers are published only by stable releases, which fail if one is missing. */
  predicate InstallersPresent(t: Attempt) {
    t.prerelease || forall i | 0 <= i < |INSTALLERS| :: HasAsset(t.assets, INSTALLERS[i])
  }

  function Channels(t: Attempt): seq<string> {
    (if t.latest then ["latest"] else []) + (if t.prerelease then ["prerelease"] else [])
  }

  function Step(digest: Digest, s: State, a: Action): State
    requires Enabled(digest, s, a)
  {
    if a.Start? then s.(attempts := s.attempts[a.id := a.attempt])
    else
      var id := a.id;
      var t := s.attempts[id];
      var ph := t.phase;
      var json := Versioned(t.version, RELEASE_JSON);
      var meta := MetadataOf(t);
      match a
      case Mirror(_, name, file) =>
        Move(s, id, Mirroring(ph.left - {name})).(store := Upload1(digest, s.store, Versioned(t.version, name), file))
      case Find(_, name) =>
        if Versioned(t.version, name) !in s.store then Move(s, id, Finding(ph.left - {name}, ph.found))
        else Checked(digest, s, id, Versioned(t.version, name), SumOf(t.assets, name), Finding(ph.left - {name}, ph.found + {name}))
      case BeginUploads(_) => Move(s, id, Uploading(Names(t.assets) - ph.found, {}))
      case Upload(_, name, file) =>
        Move(s, id, Uploading(ph.left - {name}, ph.sent + {name})).(store := Upload1(digest, s.store, Versioned(t.version, name), file))
      case VerifyUpload(_, name) =>
        Checked(digest, s, id, Versioned(t.version, name), SumOf(t.assets, name), Uploading(ph.left, ph.sent - {name}))
      case EndUploads(_) => Move(s, id, MetadataReady)
      case PutMetadata(_) => Move(s, id, MetadataSent).(store := Upload1(digest, s.store, json, meta))
      case VerifyMetadata(_) =>
        if InstallersPresent(t) then Checked(digest, s, id, json, digest(meta), Installing(if t.prerelease then [] else INSTALLERS, false))
        else Drop(s, id)
      case PutInstaller(_, file) =>
        Move(s, id, Installing(ph.todo, true)).(store := s.store[Installer(ph.todo[0]) := Object(file, digest(file).sha256)])
      case VerifyInstaller(_) =>
        Checked(digest, s, id, Installer(ph.todo[0]), SumOf(t.assets, ph.todo[0]), Installing(ph.todo[1..], false))
      case EndInstallers(_) => Move(s, id, Pointing(Channels(t), false))
      case PutChannel(_) =>
        Move(s, id, Pointing(ph.todo, true)).(store := s.store[Channel(ph.todo[0]) := Object(meta, digest(meta).sha256)])
      case VerifyChannel(_) => Checked(digest, s, id, Channel(ph.todo[0]), digest(meta), Pointing(ph.todo[1..], false))
      case Crash(_) => Drop(s, id)
  }

  /** The state after a run, or `None` if some step is not enabled. */
  function Run(digest: Digest, s: State, actions: seq<Action>): Option<State> {
    if actions == [] then Some(s)
    else
      match Run(digest, s, actions[..|actions| - 1])
      case None => None
      case Some(t) =>
        var a := actions[|actions| - 1];
        if Enabled(digest, t, a) then Some(Step(digest, t, a)) else None
  }
}
