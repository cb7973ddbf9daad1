/**
  Storage keys of bundles: `<prefix>/<owner>/<scope>/<name>/<bundle>/<path>`. Owners are Projects,
  or the system key for bundles of the system. Deleting a Project removes what its key prefix
  lists, so the encoding has to keep owners apart.
*/
module BundleKeys {
  import opened Text

  datatype KeyError = InvalidCharacter | UnsafePath | NotOneSegment | NotServiceName | ListingUnsupported

  datatype Result<+T> = Ok(value: T) | Err(error: KeyError) {
    predicate IsFailure() {
      Err?
    }

    function PropagateFailure<U>(): Result<U>
      requires Err?
    {
      Err(error)
    }

    function Extract(): T
      requires Ok?
    {
      value
    }
  }

  datatype BundleScope = BundleScope(projectId: Option<string>, serviceName: string, bundle: string)

  datatype KeyOptions = KeyOptions(prefix: Option<string>, systemKey: Option<string>)

  // ----- Normalising ---------------------------------------------------------------

  predicate IsSafe(segment: string) {
    segment != "" && segment != "." && segment != ".." && '/' !in segment && '\0' !in segment && '\\' !in segment
  }

  function DropSlashes(value: string): (r: string)
    ensures r != "" ==> r[0] != '/'
    ensures forall c :: c in r ==> c in value
  {
    if value != "" && value[0] == '/' then DropSlashes(value[1..]) else value
  }

  lemma SegmentsSafe(value: string, normalized: string)
    requires '\0' !in value && '\\' !in value && forall c :: c in normalized ==> c in value
    ensures forall segment :: segment in Split(normalized, '/') ==> '\0' !in segment && '\\' !in segment
  {
    SplitChars(normalized, '/', '\0');
    SplitChars(normalized, '/', '\\');
  }

  /** `normalizeBundleSegments`: the segments of a safe relative path. */
  function NormalizeSegments(value: string, allowEmpty: bool, allowLeadingSlash: bool): (r: Result<seq<string>>)
    ensures r.Ok? ==> (forall segment :: segment in r.value ==> IsSafe(segment)) && (r.value == [] ==> allowEmpty)
  {
    if '\0' in value || '\\' in value then Err(InvalidCharacter)
    else
      var normalized := if allowLeadingSlash then DropSlashes(value) else value;
      var segments := Split(normalized, '/');
      if allowEmpty && normalized == "" then Ok([])
      else if exists segment :: segment in segments && (segment == "" || segment == "." || segment == "..")
      then Err(UnsafePath)
      else
        SegmentsSafe(value, normalized);
        Ok(segments)
  }

  function NormalizeOwner(value: string): (r: Result<string>)
    ensures r.Ok? ==> IsSafe(r.value)
  {
    var segments :- NormalizeSegments(Trim(value), false, false);
    if |segments| != 1 then Err(NotOneSegment) else Ok(segments[0])
  }

  /** The two segments of a service name: `@scope/name`, or `zelavis/name`. */
  function NormalizeServiceName(value: string): (r: Result<seq<string>>)
    ensures r.Ok? ==> |r.value| == 2 && IsSafe(r.value[0]) && IsSafe(r.value[1])
  {
    var segments :- NormalizeSegments(Trim(value), false, false);
    if |segments| != 2 || (!("@" <= segments[0]) && segments[0] != "zelavis") then Err(NotServiceName)
    else Ok(segments)
  }

  /** Everything a key says, normalised. */
  datatype Parts = Parts(prefix: seq<string>, owner: string, service: seq<string>, bundle: string, asset: seq<string>) {
    predicate Valid() {
      && prefix != [] && (forall segment :: segment in prefix ==> IsSafe(segment))
      && IsSafe(owner)
      && |service| == 2 && IsSafe(service[0]) && IsSafe(service[1])
      && IsSafe(bundle)
      && forall segment :: segment in asset ==> IsSafe(segment)
    }

    /** The segments before the path. */
    function Head(): seq<string> {
      prefix + [owner] + service + [bundle]
    }

    function Key(): string {
      Join(prefix, "/") + "/" + owner + "/" + Join(service, "/") + "/" + bundle + "/" + Join(asset, "/")
    }
  }

  function Normalize(scope: BundleScope, path: string, options: KeyOptions): (r: Result<Parts>)
    ensures r.Ok? ==> r.value.Valid()
  {
    var prefix :- NormalizeSegments(options.prefix.GetOr("apps"), false, false);
    var systemKey :- NormalizeOwner(options.systemKey.GetOr("system"));
    var owner :- NormalizeOwner(scope.projectId.GetOr(systemKey));
    var service :- NormalizeServiceName(scope.serviceName);
    var bundle :- NormalizeOwner(scope.bundle);
    var asset :- NormalizeSegments(path, true, true);
    Ok(Parts(prefix, owner, service, bundle, asset))
  }

  /** `buildBundleStorageKey`. */
  function Build(scope: BundleScope, path: string, options: KeyOptions): Result<string> {
    var parts :- Normalize(scope, path, options);
    Ok(parts.Key())
  }

  /** The prefix by which a Project's assets are listed for deletion. */
  function DeletePrefix(projectId: string, options: KeyOptions): Result<string> {
    var prefix :- NormalizeSegments(options.prefix.GetOr("apps"), false, false);
    var owner :- NormalizeOwner(projectId);
    Ok(Join(prefix, "/") + "/" + owner + "/")
  }

  // ----- Keys and their segments ------------------------------------------------------

  lemma {:induction false} JoinAppend(xs: seq<string>, ys: seq<string>)
    requires xs != [] && ys != []
    ensures Join(xs + ys, "/") == Join(xs, "/") + "/" + Join(ys, "/")
  {
    if |xs| == 1 {
      assert (xs + ys)[1..] == ys;
    } else {
      JoinAppend(xs[1..], ys);
      assert (xs + ys)[1..] == xs[1..] + ys;
      assert xs[0] + "/" + (Join(xs[1..], "/") + "/" + Join(ys, "/"))
          == xs[0] + "/" + Join(xs[1..], "/") + "/" + Join(ys, "/");
    }
  }

  /** Cutting a text behind joined segments gives those segments first. */
  lemma SplitBehind(xs: seq<string>, rest: string)
    requires xs != [] && forall x :: x in xs ==> '/' !in x
    ensures Split(Join(xs, "/") + "/" + rest, '/') == xs + Split(rest, '/')
  {
    var tail := "/" + rest;
    SplitJoin(xs, '/');
    SplitAppend(Join(xs, "/"), tail, '/');
    assert Join(xs, "/") + "/" + rest == Join(xs, "/") + tail;
    assert tail[1..] == rest;
    assert Last(xs) + "" == Last(xs);
    assert xs == Init(xs) + [Last(xs)];
  }

  lemma HeadJoins(parts: Parts)
    requires parts.Valid()
    ensures Join(parts.Head(), "/")
            == Join(parts.prefix, "/") + "/" + parts.owner + "/" + Join(parts.service, "/") + "/" + parts.bundle
    ensures parts.Key() == Join(parts.Head(), "/") + "/" + Join(parts.asset, "/")
    ensures forall segment :: segment in parts.Head() ==> '/' !in segment
  {
    JoinAppend(parts.prefix, [parts.owner]);
    JoinAppend(parts.prefix + [parts.owner], parts.service);
    JoinAppend(parts.prefix + [parts.owner] + parts.service, [parts.bundle]);
  }

  /** A key can be read back segment by segment. */
  lemma KeySplits(parts: Parts)
    requires parts.Valid()
    ensures Split(parts.Key(), '/') == parts.Head() + if parts.asset == [] then [""] else parts.asset
  {
    HeadJoins(parts);
    SplitBehind(parts.Head(), Join(parts.asset, "/"));
    if parts.asset != [] {
      SplitJoin(parts.asset, '/');
    }
  }

  lemma SameConcatenation<T>(a: seq<T>, b: seq<T>, c: seq<T>, d: seq<T>)
    requires |a| == |c| && a + b == c + d
    ensures a == c && b == d
  {
    assert a == (a + b)[..|a|] && c == (c + d)[..|c|];
    assert b == (a + b)[|a|..] && d == (c + d)[|c|..];
  }

  /** Different normal forms have different keys. */
  lemma KeyInjective(a: Parts, b: Parts)
    requires a.Valid() && b.Valid() && |a.prefix| == |b.prefix| && a.Key() == b.Key()
    ensures a == b
  {
    KeySplits(a);
    KeySplits(b);
    var endA, endB := if a.asset == [] then [""] else a.asset, if b.asset == [] then [""] else b.asset;
    assert a.asset != [] ==> a.asset[0] in a.asset && endA[0] != "";
    assert b.asset != [] ==> b.asset[0] in b.asset && endB[0] != "";
    hide Parts.Key, Split;
    SameConcatenation(a.Head(), endA, b.Head(), endB);
    SameConcatenation(a.prefix + [a.owner] + a.service, [a.bundle], b.prefix + [b.owner] + b.service, [b.bundle]);
    SameConcatenation(a.prefix + [a.owner], a.service, b.prefix + [b.owner], b.service);
    SameConcatenation(a.prefix, [a.owner], b.prefix, [b.owner]);
    assert [a.owner][0] == [b.owner][0] && [a.bundle][0] == [b.bundle][0];
  }

  /** Where the parts of a key come from. */
  lemma PartsFrom(scope: BundleScope, path: string, options: KeyOptions)
    requires Normalize(scope, path, options).Ok?
    ensures var parts := Normalize(scope, path, options).value;
            && NormalizeSegments(options.prefix.GetOr("apps"), false, false) == Ok(parts.prefix)
            && NormalizeServiceName(scope.serviceName) == Ok(parts.service)
            && NormalizeOwner(scope.bundle) == Ok(parts.bundle)
            && NormalizeSegments(path, true, true) == Ok(parts.asset)
            && (scope.projectId.Some? ==> NormalizeOwner(scope.projectId.value) == Ok(parts.owner))
  {
    hide NormalizeSegments, NormalizeServiceName, NormalizeOwner;
  }

  /** For the same options two addresses share a key exactly when they normalise to the same parts. */
  lemma BuildInjective(s1: BundleScope, p1: string, s2: BundleScope, p2: string, options: KeyOptions)
    requires Build(s1, p1, options).Ok? && Build(s2, p2, options).Ok?
    ensures Build(s1, p1, options) == Build(s2, p2, options)
            <==> Normalize(s1, p1, options) == Normalize(s2, p2, options)
  {
    hide Normalize, Parts.Key;
    PartsFrom(s1, p1, options);
    PartsFrom(s2, p2, options);
    if Build(s1, p1, options) == Build(s2, p2, options) {
      KeyInjective(Normalize(s1, p1, options).value, Normalize(s2, p2, options).value);
    }
  }

  // ----- Owners stay apart ----------------------------------------------------------------

  /** A text that starts with joined segments and a slash has them as its first segments. */
  lemma StartsWithSegments(xs: seq<string>, key: string)
    requires xs != [] && forall x :: x in xs ==> '/' !in x
    ensures Join(xs, "/") + "/" <= key <==> xs < Split(key, '/')
  {
    var start := Join(xs, "/") + "/";
    if start <= key {
      SplitBehind(xs, key[|start|..]);
      assert key == start + key[|start|..];
    }
    if xs < Split(key, '/') {
      var rest := Split(key, '/')[|xs|..];
      JoinAppend(xs, rest);
      JoinSplit(key, '/');
      assert xs + rest == Split(key, '/');
      assert key == start + Join(rest, "/");
    }
  }

  lemma OwnerFirst(prefix: seq<string>, owner: string, rest: seq<string>, other: string)
    requires rest != []
    ensures prefix + [other] < prefix + [owner] + rest <==> owner == other
  {
    var segments, start := prefix + [owner] + rest, prefix + [other];
    assert segments[|prefix|] == owner && start[|prefix|] == other;
    assert segments[..|start|] == prefix + [owner];
  }

  lemma KeySegments(parts: Parts) returns (rest: seq<string>)
    requires parts.Valid()
    ensures rest != [] && Split(parts.Key(), '/') == parts.prefix + [parts.owner] + rest
  {
    KeySplits(parts);
    hide Parts.Key, Split;
    var end := if parts.asset == [] then [""] else parts.asset;
    rest := parts.service + [parts.bundle] + end;
    Regroup(parts.prefix + [parts.owner], parts.service, [parts.bundle]);
    Regroup(parts.prefix + [parts.owner], parts.service + [parts.bundle], end);
  }

  lemma KeyStartsWithOwner(parts: Parts, owner: string)
    requires parts.Valid() && IsSafe(owner)
    ensures Join(parts.prefix, "/") + "/" + owner + "/" <= parts.Key() <==> parts.owner == owner
  {
    var rest := KeySegments(parts);
    JoinAppend(parts.prefix, [owner]);
    StartsWithSegments(parts.prefix + [owner], parts.Key());
    hide Parts.Key, Split, Join;
    OwnerFirst(parts.prefix, parts.owner, rest, owner);
  }

  /** A built key starts with a Project's delete prefix exactly when the Project owns it. */
  lemma DeletePrefixIsOwner(scope: BundleScope, path: string, projectId: string, options: KeyOptions)
    requires Normalize(scope, path, options).Ok? && DeletePrefix(projectId, options).Ok?
    ensures DeletePrefix(projectId, options).value <= Normalize(scope, path, options).value.Key()
            <==> NormalizeOwner(projectId) == Ok(Normalize(scope, path, options).value.owner)
  {
    PartsFrom(scope, path, options);
    hide Normalize, NormalizeOwner, NormalizeSegments, Parts.Key;
    KeyStartsWithOwner(Normalize(scope, path, options).value, NormalizeOwner(projectId).value);
  }

  /** Bundles of the system are removed with a Project exactly when its id is the system key. */
  lemma SystemBundlesShareTheSystemKey(scope: BundleScope, path: string, projectId: string, options: KeyOptions)
    requires scope.projectId.None?
    requires Normalize(scope, path, options).Ok? && DeletePrefix(projectId, options).Ok?
    ensures DeletePrefix(projectId, options).value <= Normalize(scope, path, options).value.Key()
            <==> NormalizeOwner(projectId) == NormalizeOwner(options.systemKey.GetOr("system"))
  {
    DeletePrefixIsOwner(scope, path, projectId, options);
    SystemOwner(scope, path, options);
    hide Normalize, NormalizeOwner, DeletePrefix, Parts.Key;
  }

  lemma SystemOwner(scope: BundleScope, path: string, options: KeyOptions)
    requires scope.projectId.None? && Normalize(scope, path, options).Ok?
    ensures NormalizeOwner(options.systemKey.GetOr("system")) == Ok(Normalize(scope, path, options).value.owner)
  {
    hide NormalizeSegments, NormalizeServiceName;
    var systemKey := NormalizeOwner(options.systemKey.GetOr("system")).value;
    OwnerAgain(systemKey, options.systemKey.GetOr("system"));
    hide NormalizeOwner;
  }

  /** Normalising an owner twice changes nothing. */
  lemma OwnerAgain(owner: string, value: string)
    requires NormalizeOwner(value) == Ok(owner)
    ensures NormalizeOwner(owner) == Ok(owner)
  {
    var trimmed := Trim(value);
    JoinSplit(trimmed, '/');
    assert Split(trimmed, '/') == [owner];
    assert owner == trimmed;
    TrimIdempotent(value);
  }

  // ----- Listed paths rebuild -------------------------------------------------------------------

  /** Segments that were normalised once are normalised to themselves. */
  lemma SegmentsAgain(asset: seq<string>)
    requires forall segment :: segment in asset ==> IsSafe(segment)
    ensures NormalizeSegments(Join(asset, "/"), true, true) == Ok(asset)
  {
    var path := Join(asset, "/");
    if asset != [] {
      SplitJoin(asset, '/');
      JoinChars(asset, "/", '\0');
      JoinChars(asset, "/", '\\');
      assert asset[0] in asset && asset[0] <= path;
      assert path[0] == asset[0][0];
      assert DropSlashes(path) == path;
    }
  }

  /** The part of a stored key behind its scope's own prefix is the path it was built for. */
  lemma TailIsAsset(parts: Parts, other: Parts)
    requires parts.Valid() && other.Valid() && |parts.prefix| == |other.prefix|
    requires Join(parts.Head(), "/") + "/" <= other.Key()
    ensures other.Key() == Join(parts.Head(), "/") + "/" + Join(other.asset, "/")
  {
    HeadJoins(parts);
    HeadJoins(other);
    StartsWithSegments(parts.Head(), other.Key());
    KeySplits(other);
    hide Parts.Key, Split, Join;
    var n := |parts.Head()|;
    assert |other.Head()| == n;
    assert parts.Head() == Split(other.Key(), '/')[..n] == other.Head();
  }

  /** Every path that is listed for a scope leads back to the key it was listed from. */
  lemma ListedRebuilds(scope: BundleScope, listPrefix: string, options: KeyOptions,
                       builtFor: BundleScope, builtAt: string)
    requires Build(scope, listPrefix, options).Ok? && Build(builtFor, builtAt, options).Ok?
    requires Build(scope, listPrefix, options).value <= Build(builtFor, builtAt, options).value
    ensures Build(scope, "", options).Ok?
    ensures var key := Build(builtFor, builtAt, options).value;
            var n := |Build(scope, "", options).value|;
            n <= |key| && Build(scope, key[n..], options) == Ok(key)
  {
    var parts := Normalize(scope, listPrefix, options).value;
    var other := Normalize(builtFor, builtAt, options).value;
    PartsFrom(scope, listPrefix, options);
    PartsFrom(builtFor, builtAt, options);
    hide Parts.Key;
    HeadJoins(parts);
    var start := Join(parts.Head(), "/") + "/";
    assert start <= parts.Key() <= other.Key();
    TailIsAsset(parts, other);
    SegmentsAgain([]);
    SegmentsAgain(other.asset);
    OtherPath(scope, listPrefix, "", options, []);
    OtherPath(scope, listPrefix, Join(other.asset, "/"), options, other.asset);
    hide Normalize;
    HeadJoins(parts.(asset := []));
    HeadJoins(parts.(asset := other.asset));
    assert start + "" == start;
    assert other.Key()[|start|..] == Join(other.asset, "/");
  }

  /** The path of an address only decides the asset. */
  lemma OtherPath(scope: BundleScope, path: string, other: string, options: KeyOptions, asset: seq<string>)
    requires Normalize(scope, path, options).Ok? && NormalizeSegments(other, true, true) == Ok(asset)
    ensures Normalize(scope, other, options) == Ok(Normalize(scope, path, options).value.(asset := asset))
  {
    hide NormalizeSegments, NormalizeOwner, NormalizeServiceName;
  }

  // ----- The store over file storage --------------------------------------------------------------

  ghost function StartingWith<B>(files: map<string, B>, start: string): set<string> {
    set path | path in files && start <= path
  }

  /** A file storage that may not be able to list. */
  class FileStorage<B> {
    var files: map<string, B>
    const listable: bool

    constructor (listable: bool)
      ensures files == map[] && this.listable == listable
    {
      this.files, this.listable := map[], listable;
    }

    /** The paths that start with a text, each once. */
    method List(start: string) returns (paths: seq<string>)
      ensures forall path :: path in paths <==> path in StartingWith(files, start)
      ensures forall i, j :: 0 <= i < j < |paths| ==> paths[i] != paths[j]
    {
      paths := [];
      var left := files.Keys;
      ghost var seen := {};
      while left != {}
        invariant seen !! left && seen + left == files.Keys
        invariant forall path :: path in paths <==> path in seen && start <= path
        invariant forall i, j :: 0 <= i < j < |paths| ==> paths[i] != paths[j]
      {
        var path :| path in left;
        left := left - {path};
        seen := seen + {path};
        if start <= path {
          paths := paths + [path];
        }
      }
    }

    method Delete(path: string) returns (deleted: bool)
      modifies this
      ensures deleted == (path in old(files)) && files == old(files) - {path}
    {
      deleted := path in files;
      files := files - {path};
    }
  }

  /** `list`: the paths below a prefix of a scope; `keys` are the stored keys they were cut from. */
  method List<B>(storage: FileStorage<B>, scope: BundleScope, listPrefix: Option<string>, options: KeyOptions)
    returns (r: Result<seq<string>>, ghost keys: seq<string>)
    ensures r.Err? ==> storage.listable && Build(scope, listPrefix.GetOr(""), options) == Err(r.error)
    ensures !storage.listable ==> r == Ok([])
    ensures storage.listable && r.Ok? ==>
              && Build(scope, listPrefix.GetOr(""), options).Ok?
              && |r.value| == |keys|
              && (forall key :: key in keys <==>
                    key in StartingWith(storage.files, Build(scope, listPrefix.GetOr(""), options).value))
              && forall i, builtFor, builtAt {:trigger keys[i], Build(builtFor, builtAt, options)} ::
                   0 <= i < |keys| && Build(builtFor, builtAt, options) == Ok(keys[i])
                   ==> Build(scope, r.value[i], options) == Ok(keys[i])
  {
    keys := [];
    if !storage.listable {
      return Ok([]), [];
    }
    var base := Build(scope, listPrefix.GetOr(""), options);
    if base.Err? {
      return Err(base.error), [];
    }
    var entries := storage.List(base.value);
    var own := Build(scope, "", options);
    BuildsWithoutPath(scope, listPrefix.GetOr(""), options);
    var prefixLen := |own.value|;
    r := Ok(seq(|entries|, i requires 0 <= i < |entries| => Slice(entries[i], prefixLen)));
    keys := entries;
    hide Build;
    forall i, builtFor, builtAt | 0 <= i < |keys| && Build(builtFor, builtAt, options) == Ok(keys[i])
      ensures Build(scope, r.value[i], options) == Ok(keys[i])
    {
      assert keys[i] in StartingWith(storage.files, base.value);
      ListedRebuilds(scope, listPrefix.GetOr(""), options, builtFor, builtAt);
    }
  }

  /** `text.slice(n)`. */
  function Slice(text: string, n: nat): string {
    if n <= |text| then text[n..] else ""
  }

  lemma BuildsWithoutPath(scope: BundleScope, path: string, options: KeyOptions)
    requires Build(scope, path, options).Ok?
    ensures Build(scope, "", options).Ok?
  {
    SegmentsAgain([]);
    OtherPath(scope, path, "", options, []);
  }

  /**
    `deleteProject`: removes what starts with the Project's prefix, and says how many files that
    were. Of the files that were stored under built keys it removes those the Project owns, and
    no other's.
  */
  method DeleteProject<B>(storage: FileStorage<B>, projectId: string, options: KeyOptions) returns (r: Result<nat>)
    modifies storage
    ensures match DeletePrefix(projectId, options)
            case Err(e) => r == Err(e) && storage.files == old(storage.files)
            case Ok(start) =>
              if !storage.listable then r == Err(ListingUnsupported) && storage.files == old(storage.files)
              else
                var gone := StartingWith(old(storage.files), start);
                storage.files == old(storage.files) - gone && r == Ok(|gone|)
    ensures r.Ok? ==> forall scope, path {:trigger Normalize(scope, path, options)} ::
              Normalize(scope, path, options).Ok? ==>
                var parts := Normalize(scope, path, options).value;
                parts.Key() in storage.files <==>
                  parts.Key() in old(storage.files) && NormalizeOwner(projectId) != Ok(parts.owner)
  {
    var start := DeletePrefix(projectId, options);
    hide DeletePrefix, Normalize, NormalizeOwner, Parts.Key;
    if start.Err? {
      return Err(start.error);
    }
    if !storage.listable {
      return Err(ListingUnsupported);
    }
    var entries := storage.List(start.value);
    var deleted := 0;
    ghost var gone := {};
    for i := 0 to |entries|
      invariant gone == (set k | 0 <= k < i :: entries[k])
      invariant storage.files == old(storage.files) - gone && deleted == |gone|
    {
      assert entries[i] in entries;
      assert entries[i] !in gone;
      var removed := storage.Delete(entries[i]);
      gone := gone + {entries[i]};
      if removed {
        deleted := deleted + 1;
      }
    }
    forall path | path in StartingWith(old(storage.files), start.value)
      ensures path in gone
    {
      assert path in entries;
    }
    assert gone == StartingWith(old(storage.files), start.value);
    r := Ok(deleted);
    forall scope, path | Normalize(scope, path, options).Ok?
      ensures var key := Normalize(scope, path, options).value.Key();
              key in storage.files <==>
                key in old(storage.files) && NormalizeOwner(projectId) != Ok(Normalize(scope, path, options).value.owner)
    {
      DeletePrefixIsOwner(scope, path, projectId, options);
    }
  }
}
