/** The same for the COS buckets of Tencent Cloud. */
module CosUrls {
  import opened Options
  import opened Text
  import opened RepoUrls

  function CosHost(region: string): string {
    "cos." + region + ".myqcloud.com"
  }

  /** The closing slashes of the prefix are trimmed, but a prefix of slashes only leaves the
      slash before it behind. */
  function CosPath(bucket: string, prefix: string): string {
    "/" + bucket + if prefix == "" then "" else "/" + TrimRight(prefix, '/')
  }

  function CosInfo(scheme: string, region: string, bucket: string, prefix: string): Info {
    Info(region, bucket, prefix, Print(Url(scheme, CosHost(region), CosPath(bucket, prefix))))
  }

  function FormatCos(scheme: string, host: string, path: string): Option<Info> {
    var hosts := Split(host, '.');
    var pt := Split(TrimPrefix(path, "/"), '/');
    if |hosts| == 4 then
      Some(CosInfo(scheme, hosts[1], pt[0], if |pt| > 1 then Join(pt[1..], '/') else ""))
    else if |hosts| == 5 then
      Some(CosInfo(scheme, hosts[2], hosts[0], Join(pt, '/')))
    else None
  }

  function FormatCosByRawUrl(raw: string): Option<Info> {
    match ParseUrl(raw)
    case None => None
    case Some(u) =>
      var hosts := Split(u.host, '.');
      var pt := Split(TrimPrefix(u.path, "/"), '/');
      if |hosts| != 4 && |hosts| != 5 then None
      else
        var (bucket, region, prefix) :=
          if |hosts| == 4 then (pt[0], hosts[1], Join(pt[1..], '/')) else (hosts[0], hosts[2], Join(pt, '/'));
        Some(CosInfo(u.scheme, region, bucket, prefix))
  }

  /** The two entry points agree on every URL. */
  lemma RawUrlAgrees(u: Url)
    requires ValidUrl(u)
    ensures FormatCosByRawUrl(Print(u)) == FormatCos(u.scheme, u.host, u.path)
  {
    hide Split, ParseUrl, Print, TrimPrefix, ValidUrl, CosInfo;
    ParsePrint(u);
  }

  lemma FormatCosIs(scheme: string, host: string, path: string)
    ensures
      var hosts := Split(host, '.');
      var p := TrimPrefix(path, "/");
      FormatCos(scheme, host, path) ==
        if |hosts| == 4 then Some(CosInfo(scheme, hosts[1], Head(p), Tail(p)))
        else if |hosts| == 5 then Some(CosInfo(scheme, hosts[2], hosts[0], p))
        else None
  {
    hide Head, Tail, CosInfo, TrimPrefix;
    var p := TrimPrefix(path, "/");
    SplitJoinTail(p);
    JoinSplit(p, '/');
  }

  lemma CosHostParts(region: string)
    requires '.' !in region
    ensures Split(CosHost(region), '.') == ["cos", region, "myqcloud", "com"]
  {
    hide Split;
    var parts := ["cos", region, "myqcloud", "com"];
    JoinFour("cos", region, "myqcloud", "com");
    assert CosHost(region) == Join(parts, '.');
    SplitJoin(parts, '.');
  }

  predicate OnlySlashes(prefix: string) {
    prefix != "" && TrimRight(prefix, '/') == ""
  }

  lemma CosPathParts(bucket: string, prefix: string)
    requires '/' !in bucket
    ensures
      var p := TrimPrefix(CosPath(bucket, prefix), "/");
      Head(p) == bucket && Tail(p) == TrimRight(prefix, '/')
  {
    hide Head, Tail, TrimRight;
    var tail := TrimRight(prefix, '/');
    var p := bucket + if prefix == "" then "" else "/" + tail;
    assert TrimPrefix(CosPath(bucket, prefix), "/") == p;
    HeadTail(bucket, tail);
    if prefix == "" { assert p == bucket && tail == ""; } else { assert p == bucket + "/" + tail; }
  }

  lemma CosValid(scheme: string, region: string, bucket: string, prefix: string)
    requires IsScheme(scheme) && Lower(scheme) == scheme && Label(region) && Plain(bucket) && Plain(prefix)
    ensures ValidUrl(Url(scheme, CosHost(region), CosPath(bucket, prefix)))
  {
    hide IsScheme, Lower, TrimRight;
    var p := TrimRight(prefix, '/');
    assert forall c :: c in p ==> c in prefix;
    CosHostPlain(region);
  }

  lemma CosHostPlain(region: string)
    requires Label(region)
    ensures HostText(CosHost(region))
  {
  }

  /** Reading a normalised endpoint again. */
  lemma CosAgain(scheme: string, region: string, bucket: string, prefix: string)
    requires IsScheme(scheme) && Lower(scheme) == scheme && Label(region) && Plain(bucket) && Plain(prefix)
    requires '/' !in bucket
    ensures FormatCosByRawUrl(CosInfo(scheme, region, bucket, prefix).endpoint)
         == Some(CosInfo(scheme, region, bucket, TrimRight(prefix, '/')))
  {
    hide IsScheme, Lower, TrimRight, Head, Tail, ValidUrl, CosPath, CosHost, Print, FormatCosByRawUrl, FormatCos, TrimPrefix, Split;
    var path := CosPath(bucket, prefix);
    CosValid(scheme, region, bucket, prefix);
    RawUrlAgrees(Url(scheme, CosHost(region), path));
    FormatCosIs(scheme, CosHost(region), path);
    CosHostParts(region);
    CosPathParts(bucket, prefix);
  }

  lemma PrintLength(u: Url)
    ensures |Print(u)| == |u.scheme| + 3 + |u.host| + |u.path|
  {
  }

  /** Normalising a normalised endpoint changes nothing, unless the prefix is a row of slashes. */
  lemma CosStable(u: Url)
    requires ValidUrl(u) && FormatCos(u.scheme, u.host, u.path).Some?
    ensures
      var first := FormatCos(u.scheme, u.host, u.path).value;
      (FormatCosByRawUrl(first.endpoint) == Some(first.(prefix := TrimRight(first.prefix, '/')))) <==> !OnlySlashes(first.prefix)
  {
    hide IsScheme, Lower, TrimRight, Head, Tail, CosHost, Print, FormatCosByRawUrl, FormatCos, Split;
    var first := FormatCos(u.scheme, u.host, u.path).value;
    FormatCosIs(u.scheme, u.host, u.path);
    CosClean(u);
    assert first == CosInfo(u.scheme, first.region, first.bucket, first.prefix);
    CosAgain(u.scheme, first.region, first.bucket, first.prefix);
    TrimTwice(first.prefix);
    PrintLength(Url(u.scheme, CosHost(first.region), CosPath(first.bucket, first.prefix)));
    PrintLength(Url(u.scheme, CosHost(first.region), CosPath(first.bucket, TrimRight(first.prefix, '/'))));
    if first.prefix != "" && !OnlySlashes(first.prefix) {
      assert CosPath(first.bucket, first.prefix) == CosPath(first.bucket, TrimRight(first.prefix, '/'));
    }
    TrimNothing();
  }

  lemma TrimNothing()
    ensures TrimRight("", '/') == ""
  {
  }

  lemma CosClean(u: Url)
    requires ValidUrl(u) && FormatCos(u.scheme, u.host, u.path).Some?
    ensures
      var first := FormatCos(u.scheme, u.host, u.path).value;
      Label(first.region) && '/' !in first.bucket && Plain(first.bucket) && Plain(first.prefix)
  {
    hide IsScheme, Lower, TrimRight, CosHost, Print, FormatCosByRawUrl, FormatCos, IndexOf;
    FormatCosIs(u.scheme, u.host, u.path);
    SplitChars(u.host, '.');
    assert forall p :: p in Split(u.host, '.') ==> HostText(p);
    forall p | p in Split(u.host, '.') ensures Plain(p) && '/' !in p { HostIsPlain(p); }
    var p := TrimPrefix(u.path, "/");
    assert forall c :: c in p ==> c in u.path;
    assert forall c :: c in Head(p) ==> c in p;
    assert forall c :: c in Tail(p) ==> c in p;
  }

  /** Both URLs of a bucket normalise to the same repository, exactly when its name has no dot. */
  lemma CosStylesAgree(scheme: string, bucket: string, region: string, path: string)
    requires '/' !in bucket && '.' !in region
    ensures FormatCos(scheme, bucket + "." + CosHost(region), "/" + path)
         == FormatCos(scheme, CosHost(region), "/" + bucket + "/" + path)
       <==> '.' !in bucket
  {
    hide FormatCos, CosHost, Head, Tail, Split, CosInfo;
    FormatCosIs(scheme, bucket + "." + CosHost(region), "/" + path);
    FormatCosIs(scheme, CosHost(region), "/" + bucket + "/" + path);
    assert TrimPrefix("/" + path, "/") == path;
    assert TrimPrefix("/" + bucket + "/" + path, "/") == bucket + "/" + path;
    HeadTail(bucket, path);
    CosHostParts(region);
    SplitMiddle(bucket, '.', CosHost(region));
    SplitDotted(bucket);
  }
}
