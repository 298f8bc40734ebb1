/**
 * The bucket kinds of aws/aws.ts and the public-read bucket policy of
 * aws/s3-web-policy.ts, with the meaning of that policy under IAM's
 * wildcard matching of actions and resources.
 */
module S3 {
  import opened Wrappers
  import opened Strings

  /** S3BucketTypes: its one member, `public`, stands for a canned ACL. */
  datatype S3BucketType = Public {
    /** The canned ACL string the member carries. */
    function Acl(): string {
      "public-read"
    }
  }

  /** The IAM policy language version the document declares. */
  const PolicyVersion: string := "2012-10-17"

  const ObjectArnPrefix: string := "arn:aws:s3:::"

  datatype WebPolicyStatement = WebPolicyStatement(
    sid: string,
    effect: string,
    principal: string,
    action: seq<string>,
    resource: seq<string>)

  datatype WebPolicy = WebPolicy(version: string, statement: seq<WebPolicyStatement>)

  /** The resource pattern covering every object of `bucketName`. */
  function AllObjectsArn(bucketName: string): string {
    ObjectArnPrefix + bucketName + "/*"
  }

  /** Reads the bucket name back out of an all-objects resource pattern. */
  function BucketOfAllObjectsArn(arn: string): Option<string> {
    match StripPrefix(arn, ObjectArnPrefix)
    case None => None
    case Some(rest) => StripSuffix(rest, "/*")
  }

  lemma AllObjectsArnRoundTrip(bucketName: string)
    ensures BucketOfAllObjectsArn(AllObjectsArn(bucketName)) == Some(bucketName)
  {
    assert AllObjectsArn(bucketName) == ObjectArnPrefix + (bucketName + "/*");
    StripPrefixOfConcat(ObjectArnPrefix, bucketName + "/*");
    StripSuffixOfConcat(bucketName, "/*");
  }

  /**
   * s3WebPolicy: a version-2012-10-17 document with exactly one statement,
   * which allows anyone to get objects and names one resource, the pattern
   * of all objects of `bucketName`. Every string is accepted, "" included.
   */
  function S3WebPolicy(bucketName: string): (p: WebPolicy)
    ensures p.version == "2012-10-17"
    ensures |p.statement| == 1
    ensures p.statement[0].sid == "PublicReadGetObject"
    ensures p.statement[0].effect == "Allow" && p.statement[0].principal == "*"
    ensures p.statement[0].action == ["s3:GetObject"]
    ensures |p.statement[0].resource| == 1
    ensures BucketOfAllObjectsArn(p.statement[0].resource[0]) == Some(bucketName)
  {
    AllObjectsArnRoundTrip(bucketName);
    WebPolicy(PolicyVersion, [
      WebPolicyStatement("PublicReadGetObject", "Allow", "*", ["s3:GetObject"], [AllObjectsArn(bucketName)])
    ])
  }

  /** Different bucket names give different policies. */
  lemma S3WebPolicyInjective(bucket1: string, bucket2: string)
    ensures S3WebPolicy(bucket1) == S3WebPolicy(bucket2) <==> bucket1 == bucket2
  {
  }

  /** The document for "my-bucket", written out in full. */
  lemma S3WebPolicyExample()
    ensures S3WebPolicy("my-bucket")
         == WebPolicy("2012-10-17", [
              WebPolicyStatement("PublicReadGetObject", "Allow", "*", ["s3:GetObject"], ["arn:aws:s3:::my-bucket/*"])
            ])
  {
    assert AllObjectsArn("my-bucket") == "arn:aws:s3:::my-bucket/*";
  }

  /** An empty bucket name is not rejected: the resource then names the all-objects pattern of "". */
  lemma EmptyBucketNameAccepted()
    ensures S3WebPolicy("").statement[0].resource == ["arn:aws:s3:::/*"]
  {
    assert AllObjectsArn("") == "arn:aws:s3:::/*";
  }

  // ---------------------------------------------------------------------------
  // What the policy allows

  /**
   * IAM's matching of an action or resource against a pattern: `*` stands
   * for any run of characters, `?` for any one character.
   */
  predicate Matches(pattern: string, s: string)
    decreases |pattern| + |s|
  {
    if pattern == [] then s == []
    else if pattern[0] == '*' then Matches(pattern[1..], s) || (|s| > 0 && Matches(pattern, s[1..]))
    else |s| > 0 && (pattern[0] == '?' || pattern[0] == s[0]) && Matches(pattern[1..], s[1..])
  }

  /** No wildcard characters. */
  predicate Literal(s: string) {
    forall i :: 0 <= i < |s| ==> s[i] != '*' && s[i] != '?'
  }

  /** A statement lets anyone perform `action` on `resource`. */
  predicate StatementAllowsAnyone(st: WebPolicyStatement, action: string, resource: string) {
    && st.effect == "Allow"
    && st.principal == "*"
    && (exists i :: 0 <= i < |st.action| && Matches(st.action[i], action))
    && (exists j :: 0 <= j < |st.resource| && Matches(st.resource[j], resource))
  }

  predicate AllowsAnyone(p: WebPolicy, action: string, resource: string) {
    exists k :: 0 <= k < |p.statement| && StatementAllowsAnyone(p.statement[k], action, resource)
  }

  /** The ARN of the object stored under `key` in bucket `bucketName`. */
  function ObjectArn(bucketName: string, key: string): string {
    ObjectArnPrefix + bucketName + "/" + key
  }

  lemma {:induction false} StarMatchesAnything(s: string)
    ensures Matches("*", s)
    decreases |s|
  {
    if |s| > 0 {
      StarMatchesAnything(s[1..]);
    }
  }

  lemma {:induction false} LiteralMatchesItself(pattern: string, s: string)
    requires Literal(pattern)
    ensures Matches(pattern, s) <==> s == pattern
    decreases |pattern|
  {
    if pattern != [] {
      LiteralMatchesItself(pattern[1..], if |s| > 0 then s[1..] else s);
      if |s| > 0 && s[0] == pattern[0] && s[1..] == pattern[1..] {
        assert s == [s[0]] + s[1..];
        assert pattern == [pattern[0]] + pattern[1..];
      }
    }
  }

  /** A literal prefix followed by `*` matches exactly the strings with that prefix. */
  lemma {:induction false} PrefixStarMatches(prefix: string, s: string)
    requires Literal(prefix)
    ensures Matches(prefix + "*", s) <==> StartsWith(s, prefix)
    decreases |prefix|
  {
    if prefix == [] {
      assert prefix + "*" == "*";
      StarMatchesAnything(s);
    } else {
      assert (prefix + "*")[1..] == prefix[1..] + "*";
      if |s| > 0 {
        PrefixStarMatches(prefix[1..], s[1..]);
        if StartsWith(s[1..], prefix[1..]) && s[0] == prefix[0] {
          assert s[..|prefix|] == [s[0]] + s[1..][..|prefix| - 1];
          assert prefix == [prefix[0]] + prefix[1..];
        }
        if StartsWith(s, prefix) {
          assert s[1..][..|prefix| - 1] == s[..|prefix|][1..];
        }
      }
    }
  }

  lemma LiteralConcat(a: string, b: string)
    requires Literal(a) && Literal(b)
    ensures Literal(a + b)
  {
    forall i | 0 <= i < |a + b|
      ensures (a + b)[i] != '*' && (a + b)[i] != '?'
    {
      if i >= |a| {
        assert (a + b)[i] == b[i - |a|];
      }
    }
  }

  /**
   * For a bucket name without wildcard characters, the policy lets anyone
   * perform exactly one action, getting an object, on exactly the ARNs
   * that lie under "arn:aws:s3:::<bucket>/".
   */
  lemma {:induction false} S3WebPolicyAllows(bucketName: string, action: string, resource: string)
    requires Literal(bucketName)
    ensures AllowsAnyone(S3WebPolicy(bucketName), action, resource)
        <==> action == "s3:GetObject" && StartsWith(resource, ObjectArnPrefix + bucketName + "/")
  {
    var p := S3WebPolicy(bucketName);
    var st := p.statement[0];
    var prefix := ObjectArnPrefix + bucketName + "/";
    assert st.resource[0] == prefix + "*";
    LiteralConcat(ObjectArnPrefix, bucketName);
    LiteralConcat(ObjectArnPrefix + bucketName, "/");
    PrefixStarMatches(prefix, resource);
    LiteralMatchesItself("s3:GetObject", action);
    if action == "s3:GetObject" && StartsWith(resource, prefix) {
      assert Matches(st.action[0], action) && Matches(st.resource[0], resource);
      assert StatementAllowsAnyone(p.statement[0], action, resource);
    }
  }

  /**
   * A pattern made of `x` and a trailing `*` matches every string that
   * starts with `x`, whatever `x` holds: a `*` or `?` in `x` can stand for
   * the character itself.
   */
  lemma {:induction false} SelfPrefixStarMatches(x: string, y: string)
    ensures Matches(x + "*", x + y)
    decreases |x|
  {
    var p, s := x + "*", x + y;
    if x == [] {
      assert p == "*" && s == y;
      StarMatchesAnything(y);
    } else {
      assert p[1..] == x[1..] + "*" && s[1..] == x[1..] + y;
      SelfPrefixStarMatches(x[1..], y);
      assert Matches(p[1..], s[1..]);
      if p[0] == '*' {
        assert Matches(p, s[1..]);
      }
    }
  }

  /** Every object of the bucket, whatever its key, can be read by anyone, whatever the bucket's name. */
  lemma S3WebPolicyGrantsEveryObject(bucketName: string, key: string)
    ensures AllowsAnyone(S3WebPolicy(bucketName), "s3:GetObject", ObjectArn(bucketName, key))
  {
    var st := S3WebPolicy(bucketName).statement[0];
    var prefix := ObjectArnPrefix + bucketName + "/";
    assert st.resource[0] == prefix + "*";
    assert ObjectArn(bucketName, key) == prefix + key;
    SelfPrefixStarMatches(prefix, key);
    LiteralMatchesItself("s3:GetObject", "s3:GetObject");
    assert Matches(st.action[0], "s3:GetObject");
    assert StatementAllowsAnyone(st, "s3:GetObject", ObjectArn(bucketName, key));
  }

  /** The text of `s` before its first '/': the bucket part of what follows "arn:aws:s3:::". */
  function UpToSlash(s: string): string {
    if s == [] || s[0] == '/' then [] else [s[0]] + UpToSlash(s[1..])
  }

  lemma {:induction false} UpToSlashOfDelimited(name: string, rest: string)
    requires '/' !in name
    ensures UpToSlash(name + "/" + rest) == name
  {
    if name != [] {
      assert (name + "/" + rest)[1..] == name[1..] + "/" + rest;
      assert name[0] in name;
      UpToSlashOfDelimited(name[1..], rest);
      assert name == [name[0]] + name[1..];
    }
  }

  /** An object ARN lies under "arn:aws:s3:::<bucket>/" only for that bucket's own objects. */
  lemma ObjectArnUnderBucket(bucketName: string, other: string, key: string)
    requires '/' !in bucketName && '/' !in other
    ensures StartsWith(ObjectArn(other, key), ObjectArnPrefix + bucketName + "/") ==> other == bucketName
  {
    var s := ObjectArn(other, key);
    var prefix := ObjectArnPrefix + bucketName + "/";
    if StartsWith(s, prefix) {
      var rest := s[|prefix|..];
      assert s == prefix + rest;
      var tail := bucketName + "/" + rest;
      assert s == ObjectArnPrefix + (other + "/" + key);
      assert prefix + rest == ObjectArnPrefix + tail;
      StripPrefixOfConcat(ObjectArnPrefix, tail);
      StripPrefixOfConcat(ObjectArnPrefix, other + "/" + key);
      assert tail == other + "/" + key;
      UpToSlashOfDelimited(bucketName, rest);
      UpToSlashOfDelimited(other, key);
    }
  }

  /**
   * Only objects of the policy's own bucket are readable through it, as
   * long as neither bucket name holds a '/' (which S3 bucket names never do).
   */
  lemma S3WebPolicyReadsOnlyOwnBucket(bucketName: string, other: string, key: string)
    requires Literal(bucketName)
    requires '/' !in bucketName && '/' !in other
    ensures AllowsAnyone(S3WebPolicy(bucketName), "s3:GetObject", ObjectArn(other, key)) ==> other == bucketName
  {
    S3WebPolicyAllows(bucketName, "s3:GetObject", ObjectArn(other, key));
    ObjectArnUnderBucket(bucketName, other, key);
  }
}
