/** Repository URLs of S3 and COS buckets, brought to one form. */
module RepoUrls {
  import opened Options
  import opened Text

  // ---- URLs ----

  /** Scheme, host and path of section 3 of RFC 3986; percent signs, user names, ports and the
      brackets of addresses are not interpreted. */
  datatype Url = Url(scheme: string, host: string, path: string)

  function Print(u: Url): string {
    u.scheme + "://" + u.host + u.path
  }

  function Lower(s: string): string {
    seq(|s|, i requires 0 <= i < |s| => if 'A' <= s[i] <= 'Z' then s[i] - 'A' + 'a' else s[i])
  }

  predicate SchemeChar(c: char) {
    'a' <= c <= 'z' || 'A' <= c <= 'Z' || '0' <= c <= '9' || c in "+-."
  }

  predicate IsScheme(s: string) {
    s != "" && !('0' <= s[0] <= '9') && s[0] !in "+-." && forall i :: 0 <= i < |s| ==> SchemeChar(s[i])
  }

  /** No control characters: url.Parse refuses them anywhere in its text. */
  predicate Printable(s: string) {
    forall c :: c in s ==> ' ' <= c && c as int != 127
  }

  /** Printable, and neither query nor fragment. */
  predicate Plain(s: string) {
    Printable(s) && '?' !in s && '#' !in s
  }

  /** What url.Parse lets pass in a host. */
  predicate HostChar(c: char) {
    'a' <= c <= 'z' || 'A' <= c <= 'Z' || '0' <= c <= '9' || c as int >= 128 || c in "!$&'()*+,;=:[]<>\"-_.~@%"
  }

  predicate HostText(s: string) {
    forall c :: c in s ==> HostChar(c)
  }

  lemma HostIsPlain(s: string)
    requires HostText(s)
    ensures Plain(s) && '/' !in s
  {
    hide HostChar;
    forall c | c in s ensures ' ' <= c && c as int != 127 && c !in "?#/" { HostCharIsPlain(c); }
  }

  lemma HostCharIsPlain(c: char)
    requires HostChar(c)
    ensures ' ' <= c && c as int != 127 && c !in "?#/"
  {
  }

  predicate ValidUrl(u: Url) {
    && IsScheme(u.scheme) && Lower(u.scheme) == u.scheme
    && HostText(u.host)
    && Plain(u.path) && (u.path == "" || u.path[0] == '/')
  }

  /** url.Parse, for URLs with an authority; the others have an empty host, which every caller
      here refuses. */
  function ParseUrl(raw: string): Option<Url> {
    var unfragmented := raw[..IndexOf(raw, '#')];
    var s := unfragmented[..IndexOf(unfragmented, '?')];
    var i := IndexOf(s, ':');
    if !Printable(raw) || !IsScheme(s[..i]) || !HasPrefix(s[i..], "://") then None
    else
      var rest := s[i + 3..];
      var j := IndexOf(rest, '/');
      if !HostText(rest[..j]) then None else Some(Url(Lower(s[..i]), rest[..j], rest[j..]))
  }

  lemma SchemeHasNone(s: string)
    requires IsScheme(s)
    ensures ':' !in s && Plain(s)
  {
  }

  /** The text comes apart where it was put together; what is left is the test of the host. */
  lemma ParseParts(u: Url)
    requires IsScheme(u.scheme) && Lower(u.scheme) == u.scheme
    requires Plain(u.host) && '/' !in u.host && Plain(u.path) && (u.path == "" || u.path[0] == '/')
    ensures ParseUrl(Print(u)) == if HostText(u.host) then Some(u) else None
  {
    hide IsScheme, IndexOf, Lower, HostText;
    var s := Print(u);
    SchemeHasNone(u.scheme);
    IndexIs(s, '#', |s|);
    IndexIs(s, '?', |s|);
    assert s[..|s|] == s;
    assert s[..|u.scheme|] == u.scheme;
    IndexIs(s, ':', |u.scheme|);
    var rest := s[|u.scheme| + 3..];
    assert rest == u.host + u.path;
    assert rest[..|u.host|] == u.host && rest[|u.host|..] == u.path;
    IndexIs(rest, '/', |u.host|);
    assert s[|u.scheme|..][..3] == "://";
  }

  lemma ParsePrint(u: Url)
    requires ValidUrl(u)
    ensures ParseUrl(Print(u)) == Some(u)
  {
    HostIsPlain(u.host);
    ParseParts(u);
  }

  lemma LowerLower(s: string)
    requires IsScheme(s)
    ensures IsScheme(Lower(s)) && Lower(Lower(s)) == Lower(s)
  {
  }

  lemma ParsedIsValid(raw: string)
    requires ParseUrl(raw).Some?
    ensures ValidUrl(ParseUrl(raw).value)
  {
    hide IsScheme, Lower, HostText, Plain, Printable;
    var unfragmented := raw[..IndexOf(raw, '#')];
    var s := unfragmented[..IndexOf(unfragmented, '?')];
    CutIsPlain(raw);
    var rest := s[IndexOf(s, ':') + 3..];
    TailIsPlain(s, IndexOf(s, ':') + 3);
    TailIsPlain(rest, IndexOf(rest, '/'));
    LowerLower(s[..IndexOf(s, ':')]);
  }

  lemma CutIsPlain(raw: string)
    requires Printable(raw)
    ensures
      var unfragmented := raw[..IndexOf(raw, '#')];
      Plain(unfragmented[..IndexOf(unfragmented, '?')])
  {
    var unfragmented := raw[..IndexOf(raw, '#')];
    var s := unfragmented[..IndexOf(unfragmented, '?')];
    assert '#' !in unfragmented;
    assert forall c :: c in s ==> c in unfragmented;
    assert forall c :: c in unfragmented ==> c in raw;
  }

  lemma TailIsPlain(s: string, i: nat)
    requires i <= |s| && Plain(s)
    ensures Plain(s[i..])
  {
    assert forall c :: c in s[i..] ==> c in s;
  }

  // ---- splitting at the first slash ----

  function Head(p: string): string {
    p[..IndexOf(p, '/')]
  }

  function Tail(p: string): string {
    var i := IndexOf(p, '/');
    if i == |p| then "" else p[i + 1..]
  }

  lemma HeadTail(head: string, tail: string)
    requires '/' !in head
    ensures Head(head + "/" + tail) == head && Tail(head + "/" + tail) == tail
    ensures Head(head) == head && Tail(head) == ""
  {
    var p := head + "/" + tail;
    assert p[..|head|] == head && p[|head| + 1..] == tail;
    assert head[..|head|] == head;
    IndexIs(p, '/', |head|);
    IndexIs(head, '/', |head|);
  }

  /** Splitting at every slash and joining all but the first part is the same. */
  lemma SplitJoinTail(p: string)
    ensures Split(p, '/')[0] == Head(p) && Join(Split(p, '/')[1..], '/') == Tail(p)
  {
    var i := IndexOf(p, '/');
    if i < |p| {
      assert Split(p, '/')[1..] == Split(p[i + 1..], '/');
      JoinSplit(p[i + 1..], '/');
    } else {
      assert Split(p, '/') == [p];
    }
  }

  // ---- S3 ----

  datatype Info = Info(region: string, bucket: string, prefix: string, endpoint: string)

  function S3Base(region: string, bucket: string): string {
    "s3:https://s3." + region + ".amazonaws.com/" + bucket
  }

  function S3Endpoint(region: string, bucket: string, prefix: string): string {
    var base := S3Base(region, bucket);
    TrimRight(if prefix != "" then base + "/" + TrimRight(prefix, '/') else base, '/')
  }

  function S3Info(region: string, bucket: string, prefix: string): Info {
    Info(region, bucket, prefix, S3Endpoint(region, bucket, prefix))
  }

  /** The three host forms, after the check of the domain. */
  function ReadS3(host: string, path: string): Option<Info> {
    var parts := Split(host, '.');
    if |parts| < 3 || parts[|parts| - 2] != "amazonaws" || parts[|parts| - 1] != "com" then None
    else if HasPrefix(host, "s3.") then
      if |parts| < 4 || Head(path) == "" then None
      else Some(S3Info(parts[1], Head(path), Tail(path)))
    else if |parts| >= 5 && parts[1] == "s3" then Some(S3Info(parts[2], parts[0], path))
    else if |parts| >= 4 then Some(S3Info(parts[1], parts[0], path))
    else None
  }

  const AMAZON := ".amazonaws.com"

  lemma AmazonParts(x: string)
    ensures Split(x + AMAZON, '.') == Split(x, '.') + ["amazonaws", "com"]
  {
    hide Split;
    var parts := ["amazonaws", "com"];
    assert ["amazonaws"] + ["com"] == parts;
    JoinMore("amazonaws", ["com"], '.');
    assert Join(parts, '.') == "amazonaws.com";
    SplitJoin(parts, '.');
    assert x + AMAZON == x + "." + "amazonaws.com";
    SplitMiddle(x, '.', "amazonaws.com");
  }

  /** A host whose last two labels are those ends with them. */
  lemma {:induction false} AmazonEnds(parts: seq<string>)
    requires |parts| >= 3 && parts[|parts| - 2] == "amazonaws" && parts[|parts| - 1] == "com"
    ensures Join(parts, '.') == Join(parts[..|parts| - 2], '.') + AMAZON
  {
    var rest := parts[1..];
    assert parts == [parts[0]] + rest;
    JoinMore(parts[0], rest, '.');
    if |parts| == 3 {
      assert rest == ["amazonaws"] + ["com"] && parts[..1] == [parts[0]];
      JoinMore("amazonaws", ["com"], '.');
    } else {
      AmazonEnds(rest);
      assert parts[..|parts| - 2] == [parts[0]] + rest[..|rest| - 2];
      JoinMore(parts[0], rest[..|rest| - 2], '.');
    }
  }

  /** Which hosts are read at all: those under ".amazonaws.com" with two labels or more before it;
      and one that begins with the name of the service needs a bucket in the path. */
  lemma S3AcceptedIff(host: string, path: string)
    ensures ReadS3(host, path).Some? <==>
      && (HasPrefix(host, "s3.") ==> Head(path) != "")
      && exists x :: host == x + AMAZON && '.' in x
  {
    hide Split, Head, Tail, S3Endpoint, HasPrefix;
    var parts := Split(host, '.');
    if x :| host == x + AMAZON && '.' in x {
      AmazonParts(x);
      SplitDotted(x);
    }
    if |parts| >= 4 && parts[|parts| - 2] == "amazonaws" && parts[|parts| - 1] == "com" {
      AmazonEnds(parts);
      JoinSplit(host, '.');
      var x := Join(parts[..|parts| - 2], '.');
      AmazonParts(x);
      assert Split(x, '.') == parts[..|parts| - 2];
      SplitDotted(x);
    }
  }

  function FormatS3(raw: string): Option<Info> {
    match ParseUrl(raw)
    case None => None
    case Some(u) => ReadS3(u.host, TrimPrefix(u.path, "/"))
  }

  /** FormatEndpoint hands the endpoint on without the "s3:" in front. */
  function Bare(endpoint: string): string {
    TrimPrefix(endpoint, "s3:")
  }

  predicate Label(s: string) {
    '.' !in s && HostText(s)
  }

  /** Regions and buckets come out of a host or of one path segment. */
  lemma ReadS3Clean(host: string, path: string)
    requires HostText(host) && Plain(path) && ReadS3(host, path).Some?
    ensures
      var r := ReadS3(host, path).value;
      Label(r.region) && '/' !in r.bucket && Plain(r.bucket) && Plain(r.prefix)
  {
    hide TrimRight, IndexOf, HostChar;
    var parts := Split(host, '.');
    SplitChars(host, '.');
    assert forall p :: p in parts ==> HostText(p);
    forall p | p in parts ensures Plain(p) && '/' !in p { HostIsPlain(p); }
    assert forall c :: c in Head(path) ==> c in path;
    assert forall c :: c in Tail(path) ==> c in path;
  }

  lemma {:induction false} SplitChars(s: string, c: char)
    ensures forall p :: p in Split(s, c) ==> forall d :: d in p ==> d in s
    decreases |s|
  {
    var i := IndexOf(s, c);
    if i < |s| {
      SplitChars(s[i + 1..], c);
      assert forall d :: d in s[i + 1..] ==> d in s;
    }
  }

  lemma SplitDotted(s: string)
    ensures '.' in s ==> |Split(s, '.')| >= 2 && Split(s, '.')[0] != s
    ensures '.' !in s ==> Split(s, '.') == [s]
  {
    if '.' !in s {
      IndexIs(s, '.', |s|);
      assert s[..|s|] == s;
    }
  }

  function S3Host(region: string): string {
    "s3." + region + ".amazonaws.com"
  }

  lemma S3HostParts(region: string)
    requires '.' !in region
    ensures Split(S3Host(region), '.') == ["s3", region, "amazonaws", "com"] && HasPrefix(S3Host(region), "s3.")
  {
    hide Split;
    var parts := ["s3", region, "amazonaws", "com"];
    JoinFour("s3", region, "amazonaws", "com");
    assert S3Host(region) == Join(parts, '.');
    SplitJoin(parts, '.');
  }

  lemma JoinFour(a: string, b: string, c: string, d: string)
    ensures Join([a, b, c, d], '.') == a + "." + (b + "." + (c + "." + d))
  {
    assert [c] + [d] == [c, d] && [b] + [c, d] == [b, c, d] && [a] + [b, c, d] == [a, b, c, d];
    JoinMore(c, [d], '.');
    JoinMore(b, [c, d], '.');
    JoinMore(a, [b, c, d], '.');
  }

  /** What path-style URLs say. */
  lemma ReadPathStyle(region: string, path: string)
    requires '.' !in region
    ensures ReadS3(S3Host(region), path)
         == if Head(path) == "" then None else Some(S3Info(region, Head(path), Tail(path)))
  {
    hide Split, TrimRight, IndexOf;
    S3HostParts(region);
  }

  /** The path of a normalised endpoint: the bucket, and the prefix without closing slashes. */
  function S3Path(bucket: string, prefix: string): string {
    var p := TrimRight(prefix, '/');
    "/" + bucket + if p == "" then "" else "/" + p
  }

  lemma Regroup(a: string, b: string, c: string, d: string, r: string, m: string, s: string, k: string, x: string)
    ensures a + (b + c + (d + r + m) + (s + k + x)) == (a + b + c + d) + r + (m + s) + k + x
  {
    assert (d + r + m) + (s + k + x) == d + r + (m + s) + k + x;
    assert a + (b + c + (d + r + m) + (s + k + x)) == (a + b + c) + ((d + r + m) + (s + k + x));
  }

  lemma S3BaseText(region: string, bucket: string, x: string)
    ensures S3Base(region, bucket) + x == "s3:" + Print(Url("https", S3Host(region), "/" + bucket + x))
  {
    assert "s3:" + "https" + "://" + "s3." == "s3:https://s3.";
    assert ".amazonaws.com" + "/" == ".amazonaws.com/";
    Regroup("s3:", "https", "://", "s3.", region, ".amazonaws.com", "/", bucket, x);
  }

  /** Trimming the endpoint takes off what trimming the prefix has left of the slashes. */
  lemma TrimEndpoint(base: string, prefix: string)
    requires base != "" && base[|base| - 1] != '/'
    ensures
      var p := TrimRight(prefix, '/');
      TrimRight(if prefix != "" then base + "/" + p else base, '/') == base + if p == "" then "" else "/" + p
  {
    var p := TrimRight(prefix, '/');
    TrimRightIs(if prefix != "" then base + "/" + p else base, '/', base + if p == "" then "" else "/" + p);
  }

  lemma EndpointText(region: string, bucket: string, prefix: string)
    requires bucket != "" && '/' !in bucket
    ensures S3Endpoint(region, bucket, prefix) == "s3:" + Print(Url("https", S3Host(region), S3Path(bucket, prefix)))
  {
    hide TrimRight, Print, S3Host;
    var base := S3Base(region, bucket);
    var p := TrimRight(prefix, '/');
    LastOfBase(region, bucket);
    TrimEndpoint(base, prefix);
    hide S3Base;
    S3BaseText(region, bucket, if p == "" then "" else "/" + p);
  }

  lemma LastOfBase(region: string, bucket: string)
    requires bucket != "" && '/' !in bucket
    ensures S3Base(region, bucket) != "" && S3Base(region, bucket)[|S3Base(region, bucket)| - 1] != '/'
  {
    var a := "s3:https://s3." + region + ".amazonaws.com/";
    assert (a + bucket)[|a + bucket| - 1] == bucket[|bucket| - 1];
  }

  lemma TrimTwice(s: string)
    ensures TrimRight(TrimRight(s, '/'), '/') == TrimRight(s, '/')
  {
  }

  lemma EndpointPlain(region: string, bucket: string, prefix: string)
    requires Label(region) && Plain(bucket) && Plain(prefix)
    ensures ValidUrl(Url("https", S3Host(region), S3Path(bucket, prefix)))
  {
    hide TrimRight, IsScheme, Lower;
    var p := TrimRight(prefix, '/');
    assert forall c :: c in p ==> c in prefix;
    HttpsIsScheme();
    S3HostPlain(region);
  }

  lemma SamePrefixEndpoint(region: string, bucket: string, prefix: string)
    requires bucket != "" && '/' !in bucket
    ensures S3Endpoint(region, bucket, TrimRight(prefix, '/')) == S3Endpoint(region, bucket, prefix)
  {
    hide TrimRight, S3Endpoint;
    TrimTwice(prefix);
    EndpointText(region, bucket, prefix);
    EndpointText(region, bucket, TrimRight(prefix, '/'));
  }

  /** Normalising a normalised endpoint changes nothing, exactly when the bucket is named. */
  lemma S3Stable(raw: string)
    requires FormatS3(raw).Some?
    ensures
      var first := FormatS3(raw).value;
      var again := FormatS3(Bare(first.endpoint));
      again == Some(first.(prefix := TrimRight(first.prefix, '/'))) <==> first.bucket != ""
  {
    hide TrimRight, IndexOf, ReadS3, S3Endpoint, ValidUrl, ParseUrl;
    var u := ParseUrl(raw).value;
    var first := FormatS3(raw).value;
    ParsedIsValid(raw);
    UrlParts(u);
    ReadS3Clean(u.host, TrimPrefix(u.path, "/"));
    InfoShape(u.host, TrimPrefix(u.path, "/"));
    if first.bucket == "" {
      S3NoBucket(first.region, first.prefix);
    } else {
      S3Again(first.region, first.bucket, first.prefix);
    }
  }

  lemma UrlParts(u: Url)
    requires ValidUrl(u)
    ensures HostText(u.host) && Plain(TrimPrefix(u.path, "/"))
  {
    assert forall c :: c in TrimPrefix(u.path, "/") ==> c in u.path;
  }

  lemma InfoShape(host: string, path: string)
    requires ReadS3(host, path).Some?
    ensures
      var r := ReadS3(host, path).value;
      r == S3Info(r.region, r.bucket, r.prefix)
  {
    hide TrimRight, IndexOf, Split;
  }

  lemma BareOf(t: string)
    ensures Bare("s3:" + t) == t
  {
  }

  lemma S3PathParts(bucket: string, prefix: string)
    requires '/' !in bucket
    ensures
      var path := TrimPrefix(S3Path(bucket, prefix), "/");
      Head(path) == bucket && Tail(path) == TrimRight(prefix, '/')
  {
    hide TrimRight, Head, Tail;
    var p := TrimRight(prefix, '/');
    var path := bucket + if p == "" then "" else "/" + p;
    assert TrimPrefix(S3Path(bucket, prefix), "/") == path;
    HeadTail(bucket, p);
    if p == "" { assert path == bucket; } else { assert path == bucket + "/" + p; }
  }

  /** Reading what was printed. */
  lemma ReadPrinted(host: string, path: string)
    requires ValidUrl(Url("https", host, path))
    ensures FormatS3(Print(Url("https", host, path))) == ReadS3(host, TrimPrefix(path, "/"))
  {
    hide ReadS3, ParseUrl, Print, ValidUrl, TrimPrefix;
    ParsePrint(Url("https", host, path));
  }

  lemma S3Again(region: string, bucket: string, prefix: string)
    requires Label(region) && Plain(bucket) && Plain(prefix) && bucket != "" && '/' !in bucket
    ensures FormatS3(Bare(S3Endpoint(region, bucket, prefix)))
         == Some(Info(region, bucket, TrimRight(prefix, '/'), S3Endpoint(region, bucket, prefix)))
  {
    hide TrimRight, ReadS3, S3Endpoint, ValidUrl, S3Path, S3Host, Print, Bare, TrimPrefix, FormatS3, Head, Tail;
    var path := S3Path(bucket, prefix);
    EndpointText(region, bucket, prefix);
    EndpointPlain(region, bucket, prefix);
    BareOf(Print(Url("https", S3Host(region), path)));
    ReadPrinted(S3Host(region), path);
    S3PathParts(bucket, prefix);
    ReadPathStyle(region, TrimPrefix(path, "/"));
    SamePrefixEndpoint(region, bucket, prefix);
  }

  /** What the endpoint goes on with when the bucket is empty: nothing but slashes, or a second
      slash and the prefix. */
  lemma NoBucketText(region: string, prefix: string)
    requires Label(region) && Plain(prefix)
    ensures
      var p := TrimRight(prefix, '/');
      S3Endpoint(region, "", prefix) == "s3:" + Print(Url("https", S3Host(region), if p == "" then "" else "//" + p))
  {
    hide TrimRight, Print, S3Host;
    var p := TrimRight(prefix, '/');
    var bare := "s3:https://s3." + region + ".amazonaws.com";
    assert S3Base(region, "") == bare + "/";
    NoBucketTrim(bare, prefix);
    var x := if p == "" then "" else "//" + p;
    S3HostText(region, x);
  }

  lemma S3HostText(region: string, x: string)
    ensures "s3:https://s3." + region + ".amazonaws.com" + x == "s3:" + Print(Url("https", S3Host(region), x))
  {
    assert "s3:" + "https" + "://" + "s3." == "s3:https://s3.";
    assert ".amazonaws.com" + "" == ".amazonaws.com";
    Regroup("s3:", "https", "://", "s3.", region, ".amazonaws.com", "", "", x);
  }

  lemma NoBucketTrim(bare: string, prefix: string)
    requires bare != "" && bare[|bare| - 1] != '/'
    ensures
      var p := TrimRight(prefix, '/');
      TrimRight(if prefix != "" then bare + "/" + "/" + p else bare + "/", '/') == bare + if p == "" then "" else "//" + p
  {
    var p := TrimRight(prefix, '/');
    TrimRightIs(if prefix != "" then bare + "/" + "/" + p else bare + "/", '/', bare + if p == "" then "" else "//" + p);
  }

  /** Such an endpoint is refused when it is read again. */
  lemma S3NoBucket(region: string, prefix: string)
    requires Label(region) && Plain(prefix)
    ensures FormatS3(Bare(S3Endpoint(region, "", prefix))) == None
  {
    hide TrimRight, ReadS3, S3Endpoint, S3Host, Print, Bare, FormatS3, Head, Tail, TrimPrefix, ValidUrl;
    var p := TrimRight(prefix, '/');
    var path := if p == "" then "" else "//" + p;
    NoBucketText(region, prefix);
    BareOf(Print(Url("https", S3Host(region), path)));
    TrimmedPlain(region, prefix);
    ReadPrinted(S3Host(region), path);
    HeadTail("", p);
    OneSlashLess(p);
    ReadPathStyle(region, TrimPrefix(path, "/"));
  }

  lemma OneSlashLess(p: string)
    ensures TrimPrefix(if p == "" then "" else "//" + p, "/") == if p == "" then "" else "" + "/" + p
  {
  }

  lemma TrimmedPlain(region: string, prefix: string)
    requires Label(region) && Plain(prefix)
    ensures
      var p := TrimRight(prefix, '/');
      ValidUrl(Url("https", S3Host(region), if p == "" then "" else "//" + p))
  {
    hide TrimRight, IsScheme, Lower;
    var p := TrimRight(prefix, '/');
    assert forall c :: c in p ==> c in prefix;
    HttpsIsScheme();
    S3HostPlain(region);
  }

  lemma HttpsIsScheme()
    ensures IsScheme("https") && Lower("https") == "https"
  {
  }

  lemma S3HostPlain(region: string)
    requires Label(region)
    ensures HostText(S3Host(region))
  {
  }
}
