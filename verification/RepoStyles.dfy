/** One S3 bucket has two URLs, with the bucket in the host or in the path. */
module RepoStyles {
  import opened Options
  import opened Text
  import opened RepoUrls

  function VirtualHosted(bucket: string, region: string, path: string): Url {
    Url("https", bucket + "." + S3Host(region), "/" + path)
  }

  function PathStyle(bucket: string, region: string, path: string): Url {
    Url("https", S3Host(region), "/" + bucket + "/" + path)
  }

  lemma HostParts(bucket: string, region: string)
    requires '.' !in region
    ensures Split(bucket + "." + S3Host(region), '.') == Split(bucket, '.') + ["s3", region, "amazonaws", "com"]
  {
    hide Split;
    SplitMiddle(bucket, '.', S3Host(region));
    S3HostParts(region);
  }

  lemma HostStartsS3(bucket: string, region: string)
    requires '.' !in bucket
    ensures HasPrefix(bucket + "." + S3Host(region), "s3.") <==> bucket == "s3"
  {
    var host := bucket + "." + S3Host(region);
    assert host[|bucket|] == '.';
    assert host[..|bucket|] == bucket;
    if HasPrefix(host, "s3.") {
      assert host[0] == 's' && host[1] == '3' && host[2] == '.';
      assert |bucket| == 2;
      assert bucket == [host[0], host[1]];
    }
  }

  /** A path-style reading of the object path loses its first segment. */
  lemma TailShorter(p: string)
    requires Head(p) != ""
    ensures Tail(p) != p
  {
    assert |Tail(p)| < |p|;
  }

  lemma ReadVirtualHosted(bucket: string, region: string, path: string)
    requires '.' !in region && bucket != ""
    ensures ReadS3(bucket + "." + S3Host(region), path) == Some(S3Info(region, bucket, path))
       <==> '.' !in bucket && bucket != "s3"
  {
    hide TrimRight, S3Host, Head, Tail, Split, HasPrefix, S3Endpoint;
    var parts := Split(bucket + "." + S3Host(region), '.');
    HostParts(bucket, region);
    SplitDotted(bucket);
    if Head(path) != "" { TailShorter(path); }
    if '.' !in bucket { HostStartsS3(bucket, region); }
    assert parts[|parts| - 2] == "amazonaws" && parts[|parts| - 1] == "com";
  }

  lemma StylesParse(bucket: string, region: string, path: string)
    requires '/' !in bucket && Plain(bucket) && Label(region) && Plain(path)
    ensures ValidUrl(PathStyle(bucket, region, path))
    ensures HostText(bucket) ==> ValidUrl(VirtualHosted(bucket, region, path))
    ensures !HostText(bucket) ==> ParseUrl(Print(VirtualHosted(bucket, region, path))) == None
  {
    hide HostChar, ParseUrl, Print, IsScheme, Lower, S3Host;
    HttpsIsScheme();
    S3HostPlain(region);
    HostIsPlain(S3Host(region));
    var host := bucket + "." + S3Host(region);
    assert HostText(bucket) <==> HostText(host) by { DotIsHost(); HostOfParts(bucket, S3Host(region)); }
    assert Plain(host) && '/' !in host;
    ParseParts(VirtualHosted(bucket, region, path));
  }

  lemma DotIsHost()
    ensures HostChar('.')
  {
  }

  lemma HostOfParts(a: string, b: string)
    requires HostText(b) && HostChar('.')
    ensures HostText(a + "." + b) <==> HostText(a)
  {
    hide HostChar;
    assert forall c :: c in a ==> c in a + "." + b;
  }

  /** Both URLs of a bucket normalise to the same repository, exactly for a non-empty bucket
      other than "s3" whose name holds no dot and could stand in a host: with a dot, the first
      label is taken for the bucket, and "s3" is taken for the service. */
  lemma S3StylesAgree(bucket: string, region: string, path: string)
    requires '/' !in bucket && Plain(bucket) && Label(region) && Plain(path)
    ensures FormatS3(Print(VirtualHosted(bucket, region, path))) == FormatS3(Print(PathStyle(bucket, region, path)))
       <==> bucket != "" && bucket != "s3" && '.' !in bucket && HostText(bucket)
  {
    hide ReadS3, ValidUrl, Print, S3Host, Head, Tail, S3Endpoint, HostText, ParseUrl;
    StylesParse(bucket, region, path);
    ReadPrinted(S3Host(region), "/" + bucket + "/" + path);
    assert TrimPrefix("/" + path, "/") == path;
    assert TrimPrefix("/" + bucket + "/" + path, "/") == bucket + "/" + path;
    HeadTail(bucket, path);
    ReadPathStyle(region, bucket + "/" + path);
    if HostText(bucket) {
      ReadPrinted(bucket + "." + S3Host(region), "/" + path);
      if bucket != "" { ReadVirtualHosted(bucket, region, path); } else { ReadNoBucket(region, path); }
    } else {
      EmptyIsHost();
    }
  }

  // ---- the third style, without the name of the service ----

  function ShortHost(region: string): string {
    region + ".amazonaws.com"
  }

  function WithoutService(bucket: string, region: string, path: string): Url {
    Url("https", bucket + "." + ShortHost(region), "/" + path)
  }

  lemma ShortParts(bucket: string, region: string)
    requires '.' !in region
    ensures Split(bucket + "." + ShortHost(region), '.') == Split(bucket, '.') + [region, "amazonaws", "com"]
  {
    hide Split;
    var parts := [region, "amazonaws", "com"];
    assert ["amazonaws"] + ["com"] == ["amazonaws", "com"] && [region] + ["amazonaws", "com"] == parts;
    JoinMore("amazonaws", ["com"], '.');
    JoinMore(region, ["amazonaws", "com"], '.');
    assert ShortHost(region) == Join(parts, '.');
    SplitJoin(parts, '.');
    SplitMiddle(bucket, '.', ShortHost(region));
  }

  lemma ShortStartsS3(bucket: string, region: string)
    requires '.' !in bucket
    ensures HasPrefix(bucket + "." + ShortHost(region), "s3.") <==> bucket == "s3"
  {
    var host := bucket + "." + ShortHost(region);
    assert host[|bucket|] == '.' && host[..|bucket|] == bucket;
    if HasPrefix(host, "s3.") {
      assert host[0] == 's' && host[1] == '3' && host[2] == '.';
      assert |bucket| == 2;
      assert bucket == [host[0], host[1]];
    }
  }

  lemma ReadWithoutService(bucket: string, region: string, path: string)
    requires '.' !in region && bucket != ""
    ensures ReadS3(bucket + "." + ShortHost(region), path) == Some(S3Info(region, bucket, path))
       <==> '.' !in bucket && bucket != "s3"
  {
    hide TrimRight, ShortHost, Head, Tail, Split, HasPrefix, S3Endpoint;
    var parts := Split(bucket + "." + ShortHost(region), '.');
    ShortParts(bucket, region);
    SplitDotted(bucket);
    if Head(path) != "" { TailShorter(path); }
    if '.' !in bucket { ShortStartsS3(bucket, region); }
    assert parts[|parts| - 2] == "amazonaws" && parts[|parts| - 1] == "com";
  }

  lemma ReadShortNoBucket(region: string, path: string)
    requires '.' !in region
    ensures ReadS3("" + "." + ShortHost(region), path).Some?
  {
    hide TrimRight, ShortHost, Head, Tail, Split, S3Endpoint;
    ShortParts("", region);
    ShortStartsS3("", region);
    SplitDotted("");
  }

  lemma ShortParses(bucket: string, region: string, path: string)
    requires '/' !in bucket && Plain(bucket) && Label(region) && Plain(path)
    ensures HostText(bucket) ==> ValidUrl(WithoutService(bucket, region, path))
    ensures !HostText(bucket) ==> ParseUrl(Print(WithoutService(bucket, region, path))) == None
  {
    hide HostChar, ParseUrl, Print, IsScheme, Lower;
    HttpsIsScheme();
    ShortHostPlain(region);
    HostIsPlain(ShortHost(region));
    hide ShortHost;
    var host := bucket + "." + ShortHost(region);
    assert HostText(bucket) <==> HostText(host) by { DotIsHost(); HostOfParts(bucket, ShortHost(region)); }
    assert Plain(host) && '/' !in host;
    ParseParts(WithoutService(bucket, region, path));
  }

  lemma ShortHostPlain(region: string)
    requires Label(region)
    ensures HostText(ShortHost(region))
  {
    assert HostText(".amazonaws.com");
    hide HostChar;
  }

  /** It stands for the same repository as the path style under the same condition. */
  lemma ShortStyleAgrees(bucket: string, region: string, path: string)
    requires '/' !in bucket && Plain(bucket) && Label(region) && Plain(path)
    ensures FormatS3(Print(WithoutService(bucket, region, path))) == FormatS3(Print(PathStyle(bucket, region, path)))
       <==> bucket != "" && bucket != "s3" && '.' !in bucket && HostText(bucket)
  {
    hide ReadS3, ValidUrl, Print, S3Host, ShortHost, Head, Tail, S3Endpoint, HostText, ParseUrl;
    StylesParse(bucket, region, path);
    ShortParses(bucket, region, path);
    ReadPrinted(S3Host(region), "/" + bucket + "/" + path);
    assert TrimPrefix("/" + path, "/") == path;
    assert TrimPrefix("/" + bucket + "/" + path, "/") == bucket + "/" + path;
    HeadTail(bucket, path);
    ReadPathStyle(region, bucket + "/" + path);
    if HostText(bucket) {
      ReadPrinted(bucket + "." + ShortHost(region), "/" + path);
      if bucket != "" { ReadWithoutService(bucket, region, path); } else { ReadShortNoBucket(region, path); }
    } else {
      EmptyIsHost();
    }
  }

  lemma EmptyIsHost()
    ensures HostText("")
  {
  }

  lemma ReadNoBucket(region: string, path: string)
    requires '.' !in region
    ensures ReadS3("" + "." + S3Host(region), path).Some?
  {
    hide TrimRight, S3Host, Head, Tail, Split, S3Endpoint;
    HostParts("", region);
    HostStartsS3("", region);
    SplitDotted("");
  }
}
