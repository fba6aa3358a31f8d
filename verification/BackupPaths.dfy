/** The path of a backup: a location, the directory "olares-backups/", and a last part made of
    the backup's name and id. The restore side takes such a path apart again. */
module BackupPaths {
  import opened Options
  import opened Text

  /** DefaultStoragePrefix. */
  const MARKER := "olares-backups/"

  // ---- the marker ----

  /** The marker has no border: its only slash is its last character, so an occurrence that
      starts inside some text cannot end inside the marker that follows it. */
  lemma NoOverlap(p: string, rest: string, i: nat)
    requires i < |p| && At(p + MARKER + rest, i, MARKER)
    ensures At(p, i, MARKER)
  {
    var s := p + MARKER + rest;
    assert s[i..i + 15][14] == s[i + 14];
    assert forall k :: |p| <= k < |p| + 14 ==> s[k] == MARKER[k - |p|];
    assert s[i..i + 15] == p[i..i + 15];
  }

  /** The search finds the marker where it was put, exactly when the prefix holds none. */
  lemma MarkerFound(p: string, rest: string)
    ensures Find(p + MARKER + rest, MARKER) == Some(|p|) <==> !Contains(p, MARKER)
  {
    var s := p + MARKER + rest;
    assert At(s, |p|, MARKER);
    var i := Find(s, MARKER).value;
    if i < |p| { NoOverlap(p, rest, i); }
    if Contains(p, MARKER) {
      var j := Find(p, MARKER).value;
      assert s[j..j + 15] == p[j..j + 15];
      assert At(s, j, MARKER);
    }
  }

  /** utilstring.TrimSuffix: what stands before the first occurrence, or nothing. */
  function TrimSuffix(s: string, suffix: string): string {
    match Find(s, suffix)
    case None => ""
    case Some(i) => s[..i]
  }

  // ---- the last part ----

  predicate HexDigit(c: char) {
    '0' <= c <= '9' || 'a' <= c <= 'f' || 'A' <= c <= 'F'
  }

  /** The text form of a UUID (section 4 of RFC 9562), in either case. */
  predicate IsUuid(s: string) {
    |s| == 36 && forall i :: 0 <= i < 36 ==>
      if i == 8 || i == 13 || i == 18 || i == 23 then s[i] == '-' else HexDigit(s[i])
  }

  /** A match of the regular expression: any text without a newline, a dash, a UUID, the end. */
  predicate Matches(s: string, name: string, uuid: string) {
    s == name + "-" + uuid && '\n' !in name && IsUuid(uuid)
  }

  /** The UUID has a fixed length and is anchored at the end, so there is one match at most and
      the lazy quantifier has no choice. */
  lemma MatchIsUnique(s: string, n: string, u: string, m: string, v: string)
    requires Matches(s, n, u) && Matches(s, m, v)
    ensures n == m && u == v
  {
    assert |n| == |m|;
    assert n == s[..|n|] && m == s[..|n|];
    assert u == s[|n| + 1..] && v == s[|n| + 1..];
  }

  lemma MatchShape(s: string, n: string, u: string)
    requires Matches(s, n, u)
    ensures 37 <= |s| && s[|s| - 37] == '-' && s[..|s| - 37] == n && s[|s| - 36..] == u
  {
  }

  function SplitPath(str: string): (r: Option<(string, string)>)
    ensures r.Some? ==> Matches(TrimRight(str, '/'), r.value.0, r.value.1)
    ensures r.None? ==> forall n, u :: !Matches(TrimRight(str, '/'), n, u)
  {
    var s := TrimRight(str, '/');
    if |s| < 37 || s[|s| - 37] != '-' || '\n' in s[..|s| - 37] || !IsUuid(s[|s| - 36..]) then
      assert forall n, u :: !Matches(s, n, u) by {
        forall n, u ensures !Matches(s, n, u) { if Matches(s, n, u) { MatchShape(s, n, u); } }
      }
      None
    else
      assert s == s[..|s| - 37] + "-" + s[|s| - 36..];
      Some((s[..|s| - 37], s[|s| - 36..]))
  }

  predicate Slashes(s: string) {
    forall i :: 0 <= i < |s| ==> s[i] == '/'
  }

  lemma SplitPathRoundTrip(name: string, uuid: string, slashes: string)
    requires '\n' !in name && IsUuid(uuid) && Slashes(slashes)
    ensures SplitPath(name + "-" + uuid + slashes) == Some((name, uuid))
  {
    var t := name + "-" + uuid;
    var s := t + slashes;
    assert t[|t| - 1] == uuid[35];
    TrimRightIs(s, '/', t);
    assert Matches(t, name, uuid);
    var r := SplitPath(s);
    MatchIsUnique(t, name, uuid, r.value.0, r.value.1);
  }

  // ---- the whole path ----

  datatype Parsed = Parsed(prefix: string, name: string, uuid: string)

  /** The path part of ParseBackupUrl, with the prefix as FormatEndpoint cuts it out. */
  function ParsePath(path: string): Option<Parsed> {
    if TrimPrefix(path, "/") == "" then None
    else
      match Find(path, MARKER)
      case None => None
      case Some(i) =>
        match SplitPath(path[i + |MARKER|..])
        case None => None
        case Some((name, uuid)) => Some(Parsed(TrimSuffix(path, MARKER), name, uuid))
  }

  function BackupPath(prefix: string, name: string, uuid: string, slashes: string): string {
    prefix + MARKER + (name + "-" + uuid + slashes)
  }

  /** Taking the path apart gives back exactly what it was made of, whatever the name is (it may
      hold dashes, UUIDs or the marker itself), if and only if the prefix holds no marker. */
  lemma PathRoundTrip(prefix: string, name: string, uuid: string, slashes: string)
    requires '\n' !in name && IsUuid(uuid) && Slashes(slashes)
    ensures ParsePath(BackupPath(prefix, name, uuid, slashes)) == Some(Parsed(prefix, name, uuid))
       <==> !Contains(prefix, MARKER)
  {
    var rest := name + "-" + uuid + slashes;
    var path := prefix + MARKER + rest;
    MarkerFound(prefix, rest);
    assert At(path, |prefix|, MARKER);
    if Contains(prefix, MARKER) {
      CutIsShorter(path, prefix);
    } else {
      assert path[|prefix| + |MARKER|..] == rest && path[..|prefix|] == prefix;
      SplitPathRoundTrip(name, uuid, slashes);
      assert |TrimPrefix(path, "/")| > 0;
    }
  }

  lemma CutIsShorter(path: string, prefix: string)
    requires Find(path, MARKER) != Some(|prefix|) && Find(path, MARKER).Some?
    ensures TrimSuffix(path, MARKER) != prefix
  {
    assert |TrimSuffix(path, MARKER)| == Find(path, MARKER).value;
  }

  /** A path is accepted exactly when it was made like that, with a prefix that holds no marker;
      all others are refused. */
  lemma PathAcceptedIff(path: string)
    ensures ParsePath(path).Some? <==>
      exists prefix, name, uuid, slashes ::
        && path == BackupPath(prefix, name, uuid, slashes) && !Contains(prefix, MARKER)
        && '\n' !in name && IsUuid(uuid) && Slashes(slashes)
  {
    if prefix, name, uuid, slashes :|
      && path == BackupPath(prefix, name, uuid, slashes) && !Contains(prefix, MARKER)
      && '\n' !in name && IsUuid(uuid) && Slashes(slashes)
    {
      PathRoundTrip(prefix, name, uuid, slashes);
    }
    if ParsePath(path).Some? { PathMade(path); }
  }

  lemma PathMade(path: string)
    requires ParsePath(path).Some?
    ensures exists prefix, name, uuid, slashes ::
      && path == BackupPath(prefix, name, uuid, slashes) && !Contains(prefix, MARKER)
      && '\n' !in name && IsUuid(uuid) && Slashes(slashes)
  {
    var i := Find(path, MARKER).value;
    var rest := path[i + |MARKER|..];
    var (name, uuid) := SplitPath(rest).value;
    var slashes := rest[|TrimRight(rest, '/')|..];
    LastPart(rest);
    PrefixIsClean(path);
    AroundMarker(path, i, MARKER);
    hide Find, SplitPath, TrimRight, IsUuid, Slashes, Contains, At;
    assert path == BackupPath(path[..i], name, uuid, slashes);
  }

  lemma LastPart(rest: string)
    requires SplitPath(rest).Some?
    ensures
      var (name, uuid) := SplitPath(rest).value;
      var slashes := rest[|TrimRight(rest, '/')|..];
      rest == name + "-" + uuid + slashes && '\n' !in name && IsUuid(uuid) && Slashes(slashes)
  {
    hide SplitPath, IsUuid;
    var last := TrimRight(rest, '/');
    assert rest == last + rest[|last|..];
  }

  lemma PrefixIsClean(path: string)
    requires Find(path, MARKER).Some?
    ensures
      var i := Find(path, MARKER).value;
      i + |MARKER| <= |path| && path[i..i + |MARKER|] == MARKER && !Contains(path[..i], MARKER)
  {
    var i := Find(path, MARKER).value;
    var rest := path[i + |MARKER|..];
    AroundMarker(path, i, MARKER);
    hide Find, Contains, At;
    MarkerFound(path[..i], rest);
  }

  lemma AroundMarker(s: string, i: nat, m: string)
    requires At(s, i, m)
    ensures i + |m| <= |s| && s[i..i + |m|] == m && s == s[..i] + m + s[i + |m|..]
  {
  }

  // ---- directories on the file system ----

  /** The three roots that a path is joined to: the external drives, the application cache of
      the owner, and the owner's user space. */
  datatype Root = External | Cache | Userspace

  datatype Place = Place(root: Root, relative: string)

  function Slashed(p: string): string {
    if HasSuffix(p, "/") then p else p + "/"
  }

  function TrimPathPrefix(node: string, p: string): Place {
    var q := Slashed(p);
    var external := "/Files/External/" + node + "/";
    var cache := "/Cache/" + node + "/";
    if HasPrefix(q, external) then Place(External, TrimPrefix(q, external))
    else if HasPrefix(q, cache) then Place(Cache, TrimPrefix(q, cache))
    else if HasPrefix(q, "/Files/") then Place(Userspace, TrimPrefix(q, "/Files/"))
    else Place(Userspace, q)
  }

  /** Where the backup side writes for a location path: prepareBackupParams. */
  function BackupPlace(node: string, location: string): Place {
    TrimPathPrefix(node, location)
  }

  /** Where the restore side looks for the path of a backup: FormatEndpoint. */
  function RestorePlace(node: string, urlPath: string): Place {
    TrimPathPrefix(node, TrimSuffix(urlPath, MARKER))
  }

  lemma PlaceIgnoresSlash(node: string, p: string)
    ensures TrimPathPrefix(node, Slashed(p)) == TrimPathPrefix(node, p)
  {
  }

  /** The place and the path determine each other, up to the closing slash. */
  lemma PlaceKeepsPath(node: string, p: string)
    ensures
      var place := TrimPathPrefix(node, p);
      match place.root
      case External => "/Files/External/" + node + "/" + place.relative == Slashed(p)
      case Cache => "/Cache/" + node + "/" + place.relative == Slashed(p)
      case Userspace => "/Files/" + place.relative == Slashed(p) || place.relative == Slashed(p)
  {
  }

  /** Which root it is depends on how the slashed path begins, and on nothing else. */
  lemma RootIff(node: string, p: string)
    ensures
      var q := Slashed(p);
      var root := TrimPathPrefix(node, p).root;
      && (root.External? <==> exists rest :: q == "/Files/External/" + node + "/" + rest)
      && (root.Cache? <==> exists rest :: q == "/Cache/" + node + "/" + rest)
  {
    var q := Slashed(p);
    Begins(q, "/Files/External/" + node + "/");
    Begins(q, "/Cache/" + node + "/");
    if |q| > 1 && q[1] == 'C' { Apart("/Files/External/" + node + "/", q); }
    if |q| > 1 && q[1] != 'C' { Apart("/Cache/" + node + "/", q); }
  }

  lemma Begins(q: string, prefix: string)
    ensures HasPrefix(q, prefix) <==> exists rest :: q == prefix + rest
  {
    if HasPrefix(q, prefix) { assert q == prefix + q[|prefix|..]; }
  }

  /** The path that a user sees for a place. */
  function PathOf(node: string, place: Place): string {
    match place.root
    case External => "/Files/External/" + node + "/" + place.relative
    case Cache => "/Cache/" + node + "/" + place.relative
    case Userspace => "/Files/" + place.relative
  }

  /** That path leads back to its place, for every relative path of a directory, with one
      exception: a directory of the user space called like the drives of this node. */
  lemma PlaceRoundTrip(node: string, place: Place)
    ensures TrimPathPrefix(node, PathOf(node, place)) == place
       <==> && (place.relative == "" || place.relative[|place.relative| - 1] == '/')
            && (place.root.Userspace? ==> !exists rest :: place.relative == "External/" + node + "/" + rest)
  {
    hide HasPrefix, TrimPrefix, Slashed;
    Begins(place.relative, "External/" + node + "/");
    match place.root
    case External => DriveRoundTrip(node, place.relative);
    case Cache => CacheRoundTrip(node, place.relative);
    case Userspace => UserspaceRoundTrip(node, place.relative);
  }

  /** A relative path as the resolution returns it. */
  function Closed(rel: string): string {
    if rel == "" then "" else Slashed(rel)
  }

  lemma ClosedIff(rel: string)
    ensures Closed(rel) == rel <==> rel == "" || rel[|rel| - 1] == '/'
  {
  }

  lemma TrimAgain(prefix: string, rel: string)
    requires prefix != "" && prefix[|prefix| - 1] == '/'
    ensures
      var q := Slashed(prefix + rel);
      q == prefix + Closed(rel) && HasPrefix(q, prefix) && TrimPrefix(q, prefix) == Closed(rel)
  {
  }

  lemma DriveRoundTrip(node: string, rel: string)
    ensures TrimPathPrefix(node, "/Files/External/" + node + "/" + rel) == Place(External, rel)
       <==> rel == "" || rel[|rel| - 1] == '/'
  {
    TrimAgain("/Files/External/" + node + "/", rel);
    ClosedIff(rel);
    hide HasPrefix, TrimPrefix, Slashed, Closed;
  }

  lemma CacheRoundTrip(node: string, rel: string)
    ensures TrimPathPrefix(node, "/Cache/" + node + "/" + rel) == Place(Cache, rel)
       <==> rel == "" || rel[|rel| - 1] == '/'
  {
    TrimAgain("/Cache/" + node + "/", rel);
    ClosedIff(rel);
    Apart("/Files/External/" + node + "/", "/Cache/" + node + "/" + Closed(rel));
    hide HasPrefix, TrimPrefix, Slashed, Closed;
  }

  lemma Apart(prefix: string, q: string)
    requires |prefix| > 1 && |q| > 1 && prefix[1] != q[1]
    ensures !HasPrefix(q, prefix)
  {
    assert |prefix| <= |q| ==> q[..|prefix|][1] == q[1];
  }

  lemma UserspaceRoundTrip(node: string, rel: string)
    ensures TrimPathPrefix(node, "/Files/" + rel) == Place(Userspace, rel)
       <==> (rel == "" || rel[|rel| - 1] == '/') && !HasPrefix(rel, "External/" + node + "/")
  {
    TrimAgain("/Files/", rel);
    ClosedIff(rel);
    Apart("/Cache/" + node + "/", "/Files/" + Closed(rel));
    SamePrefix("/Files/", Closed(rel), "External/" + node + "/");
    assert "/Files/" + ("External/" + node + "/") == "/Files/External/" + node + "/";
    hide HasPrefix, TrimPrefix, Slashed, Closed;
  }

  lemma SamePrefix(a: string, x: string, y: string)
    ensures HasPrefix(a + x, a + y) <==> HasPrefix(x, y)
  {
    if HasPrefix(a + x, a + y) {
      assert y == (a + y)[|a|..] && x[..|y|] == (a + x)[..|a + y|][|a|..];
    }
    if HasPrefix(x, y) { assert (a + x)[..|a + y|] == a + x[..|y|]; }
  }

  /** Paths of clearly different length name different places. */
  lemma ShorterElsewhere(node: string, p: string, q: string)
    requires |Slashed(p)| + 8 <= |Slashed(q)|
    ensures TrimPathPrefix(node, p) != TrimPathPrefix(node, q)
  {
    hide Slashed, TrimPathPrefix;
    if TrimPathPrefix(node, p) == TrimPathPrefix(node, q) { SamePlaceLength(node, p, q); }
  }

  lemma SamePlaceLength(node: string, p: string, q: string)
    requires TrimPathPrefix(node, p) == TrimPathPrefix(node, q)
    ensures |Slashed(q)| <= |Slashed(p)| + 7
  {
    hide TrimPathPrefix, Slashed;
    PlaceKeepsPath(node, p);
    PlaceKeepsPath(node, q);
  }

  /** A backup is looked for where it was written, exactly when its location holds no marker: a
      location that passes through a directory of that very name is cut at that directory. */
  lemma RestoreFindsBackup(node: string, location: string, name: string, uuid: string, slashes: string)
    ensures RestorePlace(node, BackupPath(Slashed(location), name, uuid, slashes)) == BackupPlace(node, location)
       <==> !Contains(Slashed(location), MARKER)
  {
    hide TrimPathPrefix;
    var prefix := Slashed(location);
    var rest := name + "-" + uuid + slashes;
    var path := BackupPath(prefix, name, uuid, slashes);
    MarkerFound(prefix, rest);
    if Contains(prefix, MARKER) {
      CutLength(prefix, rest);
      ShorterElsewhere(node, TrimSuffix(path, MARKER), location);
    } else {
      assert path[..|prefix|] == prefix;
      PlaceIgnoresSlash(node, location);
    }
  }

  /** A path without a marker is not taken for a backup's: the whole user space is left of it. */
  lemma RestoreWithoutMarker(node: string, urlPath: string)
    requires !Contains(urlPath, MARKER)
    ensures RestorePlace(node, urlPath) == Place(Userspace, "/")
  {
  }

  lemma CutLength(prefix: string, rest: string)
    requires Contains(prefix, MARKER)
    ensures |TrimSuffix(prefix + MARKER + rest, MARKER)| + 15 <= |prefix|
  {
    var s := prefix + MARKER + rest;
    var j := Find(prefix, MARKER).value;
    assert s[j..j + 15] == prefix[j..j + 15];
    assert At(s, j, MARKER);
  }
}
