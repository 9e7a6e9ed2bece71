/** Loading agent roles from a stack of configuration layers, lowest precedence first. */
module Roles {
  import opened Text
  import opened Sets

  type Path = string
  type RoleMap = map<string, Role>

  datatype Role = Role(description: Option<string>, configFile: Option<Path>, nicknames: Option<seq<string>>)

  datatype Named = Named(name: string, role: Role)

  /** A role file of a layer's agents directory; `parsed` is `None` when it cannot be read. */
  datatype RoleFile = RoleFile(path: Path, parsed: Option<Named>)

  /** One layer as its loader finds it: the declared roles in order (`None` where one is
      malformed), and the files of its agents directory (`None` when listing fails). */
  datatype Layer = Layer(declared: seq<Option<Named>>, files: Option<seq<RoleFile>>)

  datatype Warning = Malformed | Duplicate(name: string) | NoDescription(layer: nat, name: string)

  datatype Outcome<+T> = Loaded(value: T) | Failed

  // ---- the roles of one layer

  function FileRole(f: RoleFile): Option<Named> {
    if f.parsed.None? then None
    else Some(Named(f.parsed.value.name, f.parsed.value.role.(configFile := Some(f.path))))
  }

  /** Adds one entry: the first role of a name stays, a malformed or repeated one is skipped. */
  function AddFirst(roles: RoleMap, entry: Option<Named>): RoleMap {
    if entry.None? || entry.value.name in roles then roles else roles[entry.value.name := entry.value.role]
  }

  function FirstOfEach(entries: seq<Option<Named>>): RoleMap {
    if entries == [] then map[]
    else AddFirst(FirstOfEach(entries[..|entries| - 1]), entries[|entries| - 1])
  }

  /** Entry `i` is well-formed, and the first one of its name. */
  predicate IsFirst(entries: seq<Option<Named>>, i: nat, name: string) {
    && i < |entries| && entries[i].Some? && entries[i].value.name == name
    && forall j | 0 <= j < i && entries[j].Some? :: entries[j].value.name != name
  }

  /** The meaning without recursion: a name is there exactly if it has a well-formed entry,
      with the role of the first one. */
  lemma {:induction false} FirstOfEachIs(entries: seq<Option<Named>>, name: string)
    ensures name in FirstOfEach(entries) <==> exists i: nat :: IsFirst(entries, i, name)
    ensures forall i: nat | IsFirst(entries, i, name) ::
              name in FirstOfEach(entries) && FirstOfEach(entries)[name] == entries[i].value.role
  {
    if entries != [] {
      var n := |entries| - 1;
      var before := entries[..n];
      FirstOfEachIs(before, name);
      assert forall i: nat | i < n :: IsFirst(entries, i, name) <==> IsFirst(before, i, name);
      if entries[n].Some? && entries[n].value.name == name {
        FirstExists(entries, n, name);
      }
    }
  }

  lemma {:induction false} FirstExists(entries: seq<Option<Named>>, k: nat, name: string)
    requires k < |entries| && entries[k].Some? && entries[k].value.name == name
    ensures exists i: nat :: IsFirst(entries, i, name)
    decreases k
  {
    if j: nat :| j < k && entries[j].Some? && entries[j].value.name == name {
      FirstExists(entries, j, name);
    } else {
      assert IsFirst(entries, k, name);
    }
  }

  /** The config files of all well-formed declarations, also of repeated ones. */
  function DeclaredFiles(declared: seq<Option<Named>>): set<Path> {
    set i | 0 <= i < |declared| && declared[i].Some? && declared[i].value.role.configFile.Some? ::
      declared[i].value.role.configFile.value
  }

  function Discovered(files: seq<RoleFile>, skip: set<Path>): seq<Option<Named>> {
    if files == [] then []
    else
      var before := Discovered(files[..|files| - 1], skip);
      var f := files[|files| - 1];
      if f.path in skip then before else before + [FileRole(f)]
  }

  /** Declared roles win over discovered ones of the same layer. */
  function LayerRoles(layer: Layer): Outcome<RoleMap> {
    if layer.files.None? then Failed
    else
      var skip := DeclaredFiles(layer.declared);
      Loaded(FirstOfEach(Discovered(layer.files.value, skip)) + FirstOfEach(layer.declared))
  }

  // ---- merging layers

  function Or<T>(a: Option<T>, b: Option<T>): Option<T> {
    if a.Some? then a else b
  }

  function MergeMissing(role: Role, fallback: Role): Role {
    Role(Or(role.description, fallback.description), Or(role.configFile, fallback.configFile), Or(role.nicknames, fallback.nicknames))
  }

  function Merged(roles: RoleMap, name: string, role: Role): Role {
    if name in roles then MergeMissing(role, roles[name]) else role
  }

  /** One layer's roles on top of the roles of the layers below. */
  function ApplyLayer(roles: RoleMap, layer: RoleMap): RoleMap {
    map name | name in roles.Keys + layer.Keys && (name in roles || Merged(roles, name, layer[name]).description.Some?) ::
      if name in layer && Merged(roles, name, layer[name]).description.Some? then Merged(roles, name, layer[name])
      else if name in roles then roles[name] else layer[name]
  }

  function Fold(layers: seq<RoleMap>): RoleMap {
    if layers == [] then map[] else ApplyLayer(Fold(layers[..|layers| - 1]), layers[|layers| - 1])
  }

  // ---- the closed form

  predicate Describes(layers: seq<RoleMap>, i: nat, name: string) {
    i < |layers| && name in layers[i] && layers[i][name].description.Some?
  }

  /** `k` is the lowest layer that describes the role. */
  predicate IsFirstDescribed(layers: seq<RoleMap>, k: nat, name: string) {
    Describes(layers, k, name) && forall i: nat | i < k :: !Describes(layers, i, name)
  }

  /** The value a field has in layer `i`, if that layer has the role and sets the field. */
  function FieldAt<T>(layer: RoleMap, name: string, field: Role -> Option<T>): Option<T> {
    if name in layer then field(layer[name]) else None
  }

  /** The value of the highest layer at or above `k` that sets the field. */
  function Highest<T>(layers: seq<RoleMap>, k: nat, name: string, field: Role -> Option<T>): Option<T>
    requires k <= |layers|
    decreases |layers|
  {
    if |layers| == k then None
    else Or(FieldAt(layers[|layers| - 1], name, field), Highest(layers[..|layers| - 1], k, name, field))
  }

  /** Its meaning without recursion: some layer at or above `k` sets the field to it and no
      higher layer sets the field; it is missing exactly when no layer from `k` on does. */
  lemma {:induction false} HighestIs<T>(layers: seq<RoleMap>, k: nat, name: string, field: Role -> Option<T>)
    requires k <= |layers|
    ensures match Highest(layers, k, name, field)
            case Some(v) =>
              exists j | k <= j < |layers| ::
                && FieldAt(layers[j], name, field) == Some(v)
                && forall i | j < i < |layers| :: FieldAt(layers[i], name, field) == None
            case None => forall i | k <= i < |layers| :: FieldAt(layers[i], name, field) == None
    decreases |layers|
  {
    var n := |layers| - 1;
    if |layers| > k && FieldAt(layers[n], name, field).None? {
      HighestIs(layers[..n], k, name, field);
      assert forall i | 0 <= i < n :: layers[..n][i] == layers[i];
    }
  }

  function DescriptionOf(r: Role): Option<string> {
    r.description
  }

  function ConfigFileOf(r: Role): Option<Path> {
    r.configFile
  }

  function NicknamesOf(r: Role): Option<seq<string>> {
    r.nicknames
  }

  /** What a stack makes of a role first described in layer `k`. */
  function Assembled(layers: seq<RoleMap>, k: nat, name: string): Role
    requires k <= |layers|
  {
    Role(Highest(layers, k, name, DescriptionOf), Highest(layers, k, name, ConfigFileOf), Highest(layers, k, name, NicknamesOf))
  }

  lemma {:induction false} Undescribed(layers: seq<RoleMap>, name: string)
    requires forall i: nat :: !Describes(layers, i, name)
    ensures name !in Fold(layers)
  {
    if layers != [] {
      var below := layers[..|layers| - 1];
      forall i: nat ensures !Describes(below, i, name) {
        assert i < |below| ==> !Describes(layers, i, name);
      }
      Undescribed(below, name);
      assert !Describes(layers, |layers| - 1, name);
    }
  }

  lemma {:induction false} DescribedFrom(layers: seq<RoleMap>, k: nat, name: string)
    requires IsFirstDescribed(layers, k, name)
    ensures name in Fold(layers) && Fold(layers)[name] == Assembled(layers, k, name)
    ensures Fold(layers)[name].description.Some?
    decreases |layers|
  {
    var below := layers[..|layers| - 1];
    if k == |layers| - 1 {
      forall i: nat ensures !Describes(below, i, name) {
        assert i < k ==> !Describes(layers, i, name);
      }
      Undescribed(below, name);
      assert Highest(below, k, name, DescriptionOf).None? && Highest(below, k, name, ConfigFileOf).None?
             && Highest(below, k, name, NicknamesOf).None?;
    } else {
      assert Describes(below, k, name);
      forall i: nat | i < k ensures !Describes(below, i, name) {
        assert !Describes(layers, i, name);
      }
      DescribedFrom(below, k, name);
    }
  }

  lemma FirstDescribed(layers: seq<RoleMap>, i: nat, name: string) returns (k: nat)
    requires Describes(layers, i, name)
    ensures IsFirstDescribed(layers, k, name) && k <= i
  {
    k := 0;
    while !Describes(layers, k, name)
      invariant k <= i
      invariant forall j: nat | j < k :: !Describes(layers, j, name)
      decreases i - k
    {
      k := k + 1;
    }
  }

  /** A role is in the final map exactly when some layer describes it. */
  lemma PresentIffDescribed(layers: seq<RoleMap>, name: string)
    ensures name in Fold(layers) <==> exists i: nat :: Describes(layers, i, name)
  {
    if i: nat :| Describes(layers, i, name) {
      var k := FirstDescribed(layers, i, name);
      DescribedFrom(layers, k, name);
    } else {
      Undescribed(layers, name);
    }
  }

  lemma {:induction false} HighestIgnoresBelow<T>(layers: seq<RoleMap>, other: seq<RoleMap>, k: nat, name: string, field: Role -> Option<T>)
    requires |layers| == |other| && k <= |layers| && layers[k..] == other[k..]
    ensures Highest(layers, k, name, field) == Highest(other, k, name, field)
    decreases |layers|
  {
    if |layers| > k {
      var n := |layers| - 1;
      assert layers[n] == layers[k..][n - k] && other[n] == other[k..][n - k];
      assert layers[..n][k..] == layers[k..][..n - k] && other[..n][k..] == other[k..][..n - k];
      HighestIgnoresBelow(layers[..n], other[..n], k, name, field);
    }
  }

  /** Layers below the first description contribute nothing: any other stack with the
      same first described layer and the same layers from there on gives the same role. */
  lemma BelowContributesNothing(layers: seq<RoleMap>, other: seq<RoleMap>, k: nat, name: string)
    requires |layers| == |other| && IsFirstDescribed(layers, k, name) && IsFirstDescribed(other, k, name)
    requires layers[k..] == other[k..]
    ensures name in Fold(layers) && name in Fold(other) && Fold(layers)[name] == Fold(other)[name]
  {
    DescribedFrom(layers, k, name);
    DescribedFrom(other, k, name);
    HighestIgnoresBelow(layers, other, k, name, DescriptionOf);
    HighestIgnoresBelow(layers, other, k, name, ConfigFileOf);
    HighestIgnoresBelow(layers, other, k, name, NicknamesOf);
  }

  // ---- the loops of the loader

  method AddRole(roles: RoleMap, entry: Option<Named>, warnings: seq<Warning>) returns (r: RoleMap, w: seq<Warning>)
    ensures r == AddFirst(roles, entry)
    ensures w == warnings + (if entry.None? then [Malformed] else if entry.value.name in roles then [Duplicate(entry.value.name)] else [])
  {
    r, w := roles, warnings;
    if entry.None? {
      w := w + [Malformed];
    } else if entry.value.name in roles {
      w := w + [Duplicate(entry.value.name)];
    } else {
      r := r[entry.value.name := entry.value.role];
    }
  }

  /** Warnings that are not about a missing description. */
  predicate OnlyEntryWarnings(w: seq<Warning>) {
    forall i | 0 <= i < |w| :: !w[i].NoDescription?
  }

  lemma DeclaredFilesAppend(declared: seq<Option<Named>>, entry: Option<Named>)
    ensures DeclaredFiles(declared + [entry]) == DeclaredFiles(declared) +
            (if entry.Some? && entry.value.role.configFile.Some? then {entry.value.role.configFile.value} else {})
  {
    var all := declared + [entry];
    assert all[|declared|] == entry;
    assert forall i | 0 <= i < |declared| :: all[i] == declared[i];
  }

  lemma FirstOfEachAppend(entries: seq<Option<Named>>, entry: Option<Named>)
    ensures FirstOfEach(entries + [entry]) == AddFirst(FirstOfEach(entries), entry)
  {
    assert (entries + [entry])[..|entries|] == entries;
  }

  method CollectDeclared(declared: seq<Option<Named>>) returns (roles: RoleMap, files: set<Path>, w: seq<Warning>)
    ensures roles == FirstOfEach(declared) && files == DeclaredFiles(declared) && OnlyEntryWarnings(w)
  {
    roles, files, w := map[], {}, [];
    var i := 0;
    while i < |declared|
      invariant 0 <= i <= |declared|
      invariant roles == FirstOfEach(declared[..i]) && files == DeclaredFiles(declared[..i]) && OnlyEntryWarnings(w)
    {
      var entry := declared[i];
      assert declared[..i + 1] == declared[..i] + [entry];
      DeclaredFilesAppend(declared[..i], entry);
      FirstOfEachAppend(declared[..i], entry);
      if entry.Some? && entry.value.role.configFile.Some? {
        files := files + {entry.value.role.configFile.value};
      }
      roles, w := AddRole(roles, entry, w);
      i := i + 1;
    }
    assert declared[..i] == declared;
  }

  lemma DiscoveredNext(files: seq<RoleFile>, skip: set<Path>, i: nat)
    requires i < |files|
    ensures Discovered(files[..i + 1], skip) ==
            if files[i].path in skip then Discovered(files[..i], skip)
            else Discovered(files[..i], skip) + [FileRole(files[i])]
  {
    assert files[..i + 1][..i] == files[..i];
  }

  method Discover(files: seq<RoleFile>, skip: set<Path>) returns (roles: RoleMap, w: seq<Warning>)
    ensures roles == FirstOfEach(Discovered(files, skip)) && OnlyEntryWarnings(w)
  {
    roles, w := map[], [];
    var i := 0;
    while i < |files|
      invariant 0 <= i <= |files|
      invariant roles == FirstOfEach(Discovered(files[..i], skip)) && OnlyEntryWarnings(w)
    {
      DiscoveredNext(files, skip, i);
      if files[i].path !in skip {
        var before := Discovered(files[..i], skip);
        FirstOfEachAppend(before, FileRole(files[i]));
        roles, w := AddRole(roles, FileRole(files[i]), w);
      }
      i := i + 1;
    }
    assert files[..i] == files;
  }

  /** The state of the loop below when the names in `todo` are still to come. */
  ghost predicate AddedBut(declared: RoleMap, found: RoleMap, todo: set<string>, roles: RoleMap) {
    roles == (found - todo) + declared
  }

  lemma AddStart(declared: RoleMap, found: RoleMap)
    ensures AddedBut(declared, found, found.Keys, declared)
  {
    assert found - found.Keys == map[];
  }

  lemma AddStep(declared: RoleMap, found: RoleMap, todo: set<string>, roles: RoleMap, name: string)
    requires AddedBut(declared, found, todo, roles) && todo <= found.Keys && name in todo
    ensures AddedBut(declared, found, todo - {name}, AddFirst(roles, Some(Named(name, found[name]))))
  {
    assert found - (todo - {name}) == (found - todo)[name := found[name]];
  }

  lemma AddEnd(declared: RoleMap, found: RoleMap, roles: RoleMap)
    requires AddedBut(declared, found, {}, roles)
    ensures roles == found + declared
  {
    assert found - {} == found;
  }

  /** Discovered roles are added one by one to the declared ones. */
  method AddMissing(declared: RoleMap, found: RoleMap, warnings: seq<Warning>) returns (roles: RoleMap, w: seq<Warning>)
    requires OnlyEntryWarnings(warnings)
    ensures roles == found + declared && OnlyEntryWarnings(w)
  {
    roles, w := declared, warnings;
    var todo := found.Keys;
    AddStart(declared, found);
    while todo != {}
      invariant todo <= found.Keys && AddedBut(declared, found, todo, roles) && OnlyEntryWarnings(w)
      decreases |todo|
    {
      ghost var some := Member(todo);
      var name: string :| name in todo;
      AddStep(declared, found, todo, roles, name);
      todo := todo - {name};
      roles, w := AddRole(roles, Some(Named(name, found[name])), w);
    }
    AddEnd(declared, found, roles);
  }

  method ReadLayer(layer: Layer) returns (r: Outcome<RoleMap>, w: seq<Warning>)
    ensures r == LayerRoles(layer) && OnlyEntryWarnings(w)
  {
    var declared, skip, w1 := CollectDeclared(layer.declared);
    if layer.files.None? {
      return Failed, w1;
    }
    var found, w2 := Discover(layer.files.value, skip);
    var roles;
    roles, w := AddMissing(declared, found, w1 + w2);
    r := Loaded(roles);
  }

  function RejectedNames(below: RoleMap, layer: RoleMap): set<string> {
    set n | n in layer && Merged(below, n, layer[n]).description.None?
  }

  lemma MergeOne(below: RoleMap, done: RoleMap, name: string, role: Role)
    requires name !in done
    ensures var roles, merged := ApplyLayer(below, done), Merged(below, name, role);
            && (name in roles <==> name in below) && (name in roles ==> roles[name] == below[name])
            && ApplyLayer(below, done[name := role]) == (if merged.description.Some? then roles[name := merged] else roles)
            && RejectedNames(below, done[name := role]) == RejectedNames(below, done) + (if merged.description.None? then {name} else {})
  {
  }

  /** The state of the merge loop when the names in `todo` are still to come. */
  ghost predicate MergedBut(below: RoleMap, layer: RoleMap, todo: set<string>, roles: RoleMap, rejected: set<string>) {
    roles == ApplyLayer(below, layer - todo) && rejected == RejectedNames(below, layer - todo)
  }

  lemma MergeStart(below: RoleMap, layer: RoleMap)
    ensures MergedBut(below, layer, layer.Keys, below, {})
  {
    assert layer - layer.Keys == map[];
  }

  lemma MergeStep(below: RoleMap, layer: RoleMap, todo: set<string>, roles: RoleMap, rejected: set<string>, name: string)
    requires MergedBut(below, layer, todo, roles, rejected) && name in todo && name in layer
    ensures var merged := Merged(roles, name, layer[name]);
            if merged.description.Some? then MergedBut(below, layer, todo - {name}, roles[name := merged], rejected)
            else MergedBut(below, layer, todo - {name}, roles, rejected + {name})
  {
    assert layer - (todo - {name}) == (layer - todo)[name := layer[name]];
    MergeOne(below, layer - todo, name, layer[name]);
  }

  lemma MergeEnd(below: RoleMap, layer: RoleMap, roles: RoleMap, rejected: set<string>)
    requires MergedBut(below, layer, {}, roles, rejected)
    ensures roles == ApplyLayer(below, layer) && rejected == RejectedNames(below, layer)
  {
    assert layer - {} == layer;
  }

  /** `w` warns about exactly these names of layer `index`, and about nothing else. */
  predicate WarnsAbout(w: seq<Warning>, index: nat, names: set<string>) {
    && (forall i | 0 <= i < |w| :: w[i].NoDescription? && w[i].layer == index && w[i].name in names)
    && (forall n | n in names :: NoDescription(index, n) in w)
  }

  /** The merge loop over the roles of layer `index`. */
  method MergeLayer(below: RoleMap, layer: RoleMap, index: nat) returns (roles: RoleMap, w: seq<Warning>)
    ensures roles == ApplyLayer(below, layer) && WarnsAbout(w, index, RejectedNames(below, layer))
  {
    roles, w := below, [];
    var rejected := {};
    var todo := layer.Keys;
    MergeStart(below, layer);
    while todo != {}
      invariant todo <= layer.Keys && MergedBut(below, layer, todo, roles, rejected) && WarnsAbout(w, index, rejected)
      decreases |todo|
    {
      ghost var some := Member(todo);
      var name: string :| name in todo;
      MergeStep(below, layer, todo, roles, rejected, name);
      var merged := layer[name];
      if name in roles {
        merged := MergeMissing(merged, roles[name]);
      }
      todo := todo - {name};
      if merged.description.None? {
        w, rejected := w + [NoDescription(index, name)], rejected + {name};
      } else {
        roles := roles[name := merged];
      }
    }
    MergeEnd(below, layer, roles, rejected);
  }

  predicate AllListed(layers: seq<Layer>) {
    forall i | 0 <= i < |layers| :: layers[i].files.Some?
  }

  function RoleMaps(layers: seq<Layer>): seq<RoleMap>
    requires AllListed(layers)
  {
    seq(|layers|, i requires 0 <= i < |layers| => LayerRoles(layers[i]).value)
  }

  /** Layer `i` names the role, and neither it nor a layer below describes it. */
  predicate Rejected(layers: seq<RoleMap>, i: nat, name: string) {
    i < |layers| && name in layers[i] && forall j: nat | j <= i :: !Describes(layers, j, name)
  }

  /** A layer's role is warned about exactly when no layer up to it describes the role. */
  lemma RejectedIffUndescribed(layers: seq<RoleMap>, i: nat, name: string)
    requires i < |layers|
    ensures name in RejectedNames(Fold(layers[..i]), layers[i]) <==> Rejected(layers, i, name)
  {
    var below := layers[..i];
    PresentIffDescribed(below, name);
    assert forall j: nat | j < i :: Describes(below, j, name) == Describes(layers, j, name);
    if name in Fold(below) {
      var j: nat :| Describes(below, j, name);
      var k := FirstDescribed(below, j, name);
      DescribedFrom(below, k, name);
      assert Describes(layers, k, name);
    } else {
      assert forall j: nat | j < i :: !Describes(layers, j, name);
      assert Rejected(layers, i, name) <==> name in layers[i] && !Describes(layers, i, name);
    }
  }

  /** The description warnings of the first `n` layers. */
  ghost predicate WarningsUpTo(w: seq<Warning>, layers: seq<RoleMap>, n: nat) {
    forall i: nat, name: string :: NoDescription(i, name) in w <==> i < n && Rejected(layers, i, name)
  }

  lemma MoreWarnings(w: seq<Warning>, entry: seq<Warning>, more: seq<Warning>, layers: seq<RoleMap>, n: nat)
    requires n < |layers| && WarningsUpTo(w, layers, n) && OnlyEntryWarnings(entry)
    requires WarnsAbout(more, n, RejectedNames(Fold(layers[..n]), layers[n]))
    ensures WarningsUpTo(w + entry + more, layers, n + 1)
  {
    forall i: nat, name: string
      ensures NoDescription(i, name) in w + entry + more <==> i < n + 1 && Rejected(layers, i, name)
    {
      RejectedIffUndescribed(layers, n, name);
      assert NoDescription(i, name) !in entry;
    }
  }

  lemma FoldNext(maps: seq<RoleMap>, i: nat)
    requires i < |maps|
    ensures Fold(maps[..i + 1]) == ApplyLayer(Fold(maps[..i]), maps[i])
  {
    assert maps[..i + 1][..i] == maps[..i];
  }

  /** What the loop below has after the first `i` layers, if all directories can be listed. */
  ghost predicate LoadedUpTo(layers: seq<Layer>, i: nat, roles: RoleMap, w: seq<Warning>) {
    AllListed(layers) ==>
      i <= |layers| && roles == Fold(RoleMaps(layers)[..i]) && WarningsUpTo(w, RoleMaps(layers), i)
  }

  lemma LoadNext(layers: seq<Layer>, i: nat, below: RoleMap, w: seq<Warning>, layer: RoleMap, w1: seq<Warning>, w2: seq<Warning>)
    requires i < |layers| && LoadedUpTo(layers, i, below, w) && LayerRoles(layers[i]) == Loaded(layer)
    requires OnlyEntryWarnings(w1) && WarnsAbout(w2, i, RejectedNames(below, layer))
    ensures LoadedUpTo(layers, i + 1, ApplyLayer(below, layer), w + w1 + w2)
  {
    if AllListed(layers) {
      var maps := RoleMaps(layers);
      FoldNext(maps, i);
      MoreWarnings(w, w1, w2, maps, i);
    }
  }

  lemma LoadEnd(layers: seq<Layer>, roles: RoleMap, w: seq<Warning>)
    requires LoadedUpTo(layers, |layers|, roles, w) && AllListed(layers)
    ensures roles == Fold(RoleMaps(layers)) && WarningsUpTo(w, RoleMaps(layers), |layers|)
  {
    assert RoleMaps(layers)[..|layers|] == RoleMaps(layers);
  }

  /** Loading a non-empty stack fails exactly when some agents directory cannot be listed;
      otherwise it yields the fold of the layers' roles and warns about exactly the
      undescribed roles. */
  method LoadLayers(layers: seq<Layer>) returns (r: Outcome<RoleMap>, w: seq<Warning>)
    ensures r.Loaded? <==> AllListed(layers)
    ensures AllListed(layers) ==> r.value == Fold(RoleMaps(layers)) && WarningsUpTo(w, RoleMaps(layers), |layers|)
  {
    var roles: RoleMap := map[];
    w := [];
    var i := 0;
    while i < |layers|
      invariant 0 <= i <= |layers| && LoadedUpTo(layers, i, roles, w)
      invariant forall j | 0 <= j < i :: layers[j].files.Some?
    {
      var layer, w1 := ReadLayer(layers[i]);
      if layer.Failed? {
        assert layers[i].files.None?;
        return Failed, w + w1;
      }
      var below := roles;
      var w2;
      roles, w2 := MergeLayer(below, layer.value, i);
      LoadNext(layers, i, below, w, layer.value, w1, w2);
      w := w + w1 + w2;
      i := i + 1;
    }
    LoadEnd(layers, roles, w);
    r := Loaded(roles);
  }

  // ---- without layers every flaw is an error

  predicate StrictOk(declared: seq<Option<Named>>) {
    && (forall i | 0 <= i < |declared| :: declared[i].Some? && declared[i].value.role.description.Some?)
    && (forall i, j | 0 <= i < j < |declared| && declared[i].Some? && declared[j].Some? ::
          declared[i].value.name != declared[j].value.name)
  }

  /** The map holds exactly the declared roles. */
  ghost predicate Holds(roles: RoleMap, declared: seq<Option<Named>>) {
    forall n, role :: (n in roles && roles[n] == role) <==> Some(Named(n, role)) in declared
  }

  lemma HoldsOneMore(roles: RoleMap, declared: seq<Option<Named>>, name: string, role: Role)
    requires Holds(roles, declared) && name !in roles
    ensures Holds(roles[name := role], declared + [Some(Named(name, role))])
  {
    assert forall r :: Some(Named(name, r)) !in declared;
  }

  lemma StrictOneMore(declared: seq<Option<Named>>, named: Named, roles: RoleMap)
    requires StrictOk(declared) && Holds(roles, declared)
    ensures StrictOk(declared + [Some(named)]) <==> named.role.description.Some? && named.name !in roles
  {
    var more := declared + [Some(named)];
    if named.name in roles {
      assert Some(Named(named.name, roles[named.name])) in declared;
      var i :| 0 <= i < |declared| && declared[i] == Some(Named(named.name, roles[named.name]));
      assert more[i].value.name == more[|declared|].value.name;
    }
    forall i | 0 <= i < |declared|
      ensures declared[i].value.name in roles
    {
      assert declared[i] == Some(Named(declared[i].value.name, declared[i].value.role));
      assert declared[i] in declared;
    }
    assert more[|declared|] == Some(named);
  }

  lemma StrictPrefix(declared: seq<Option<Named>>, i: nat)
    requires i <= |declared|
    ensures StrictOk(declared) ==> StrictOk(declared[..i])
  {
  }

  /** The single-config path: it loads exactly the lists without a flaw, and then every
      declared role. */
  method LoadWithoutLayers(declared: seq<Option<Named>>) returns (r: Outcome<RoleMap>)
    ensures r.Loaded? <==> StrictOk(declared)
    ensures r.Loaded? ==> Holds(r.value, declared)
  {
    var roles: RoleMap := map[];
    var i := 0;
    while i < |declared|
      invariant 0 <= i <= |declared| && StrictOk(declared[..i]) && Holds(roles, declared[..i])
    {
      var entry := declared[i];
      if entry.None? {
        return Failed;
      }
      assert declared[..i + 1] == declared[..i] + [entry];
      StrictOneMore(declared[..i], entry.value, roles);
      StrictPrefix(declared, i + 1);
      if entry.value.role.description.None? || entry.value.name in roles {
        return Failed;
      }
      HoldsOneMore(roles, declared[..i], entry.value.name, entry.value.role);
      roles := roles[entry.value.name := entry.value.role];
      i := i + 1;
    }
    assert declared[..i] == declared;
    r := Loaded(roles);
  }

  method LoadAgentRoles(layers: seq<Layer>, config: seq<Option<Named>>) returns (r: Outcome<RoleMap>, w: seq<Warning>)
    ensures r.Loaded? <==> if layers == [] then StrictOk(config) else AllListed(layers)
    ensures layers != [] && r.Loaded? ==> r.value == Fold(RoleMaps(layers)) && WarningsUpTo(w, RoleMaps(layers), |layers|)
    ensures layers == [] && r.Loaded? ==> Holds(r.value, config)
  {
    if layers == [] {
      r := LoadWithoutLayers(config);
      w := [];
    } else {
      r, w := LoadLayers(layers);
    }
  }
}
