/** The object keys of src/lib/s3.ts. `Date.now()` is the parameter `ts`. */
module S3Keys {
  import opened Common

  /** `audio/{userId}/{projectId}/clip-{clipIndex}-{ts}.{extension}`. */
  function AudioKey(userId: string, projectId: string, clipIndex: int, extension: string, ts: nat): (k: string)
    ensures StartsWith(k, "audio/")
    ensures k == "audio/" + userId + "/" + projectId + "/clip-" + IntToString(clipIndex) + "-" + NatToString(ts) + "." + extension
  {
    var k := "audio/" + userId + "/" + projectId + "/clip-" + IntToString(clipIndex) + "-" + NatToString(ts) + "." + extension;
    assert k[..6] == "audio/";
    k
  }

  /** `exports/{userId}/{projectId}/draft-{ts}.{format}`. */
  function ExportKey(userId: string, projectId: string, format: string, ts: nat): (k: string)
    ensures StartsWith(k, "exports/")
    ensures k == "exports/" + userId + "/" + projectId + "/draft-" + NatToString(ts) + "." + format
  {
    var k := "exports/" + userId + "/" + projectId + "/draft-" + NatToString(ts) + "." + format;
    assert k[..8] == "exports/";
    k
  }

  /** Cancelling a common prefix and a common suffix. */
  lemma CancelAround(p: string, a: string, b: string, q: string)
    requires p + a + q == p + b + q
    ensures a == b
  {
    assert p + (a + q) == p + (b + q) by {
      assert p + a + q == p + (a + q);
      assert p + b + q == p + (b + q);
    }
    AppendLeftCancel(p, a + q, b + q);
    AppendRightCancel(a, b, q);
  }

  /** With every other argument fixed, distinct timestamps give distinct
      audio keys. */
  lemma AudioKeyInjectiveInTime(userId: string, projectId: string, clipIndex: int, extension: string, t1: nat, t2: nat)
    requires AudioKey(userId, projectId, clipIndex, extension, t1) == AudioKey(userId, projectId, clipIndex, extension, t2)
    ensures t1 == t2
  {
    var p := "audio/" + userId + "/" + projectId + "/clip-" + IntToString(clipIndex) + "-";
    assert p + NatToString(t1) + "." + extension == p + NatToString(t1) + ("." + extension);
    assert p + NatToString(t2) + "." + extension == p + NatToString(t2) + ("." + extension);
    CancelAround(p, NatToString(t1), NatToString(t2), "." + extension);
    NatToStringInjective(t1, t2);
  }

  /** With every other argument fixed, distinct timestamps give distinct
      export keys. */
  lemma ExportKeyInjectiveInTime(userId: string, projectId: string, format: string, t1: nat, t2: nat)
    requires ExportKey(userId, projectId, format, t1) == ExportKey(userId, projectId, format, t2)
    ensures t1 == t2
  {
    var p := "exports/" + userId + "/" + projectId + "/draft-";
    assert p + NatToString(t1) + "." + format == p + NatToString(t1) + ("." + format);
    assert p + NatToString(t2) + "." + format == p + NatToString(t2) + ("." + format);
    CancelAround(p, NatToString(t1), NatToString(t2), "." + format);
    NatToStringInjective(t1, t2);
  }

  /** An audio key is never an export key: they differ in the first letter. */
  lemma AudioAndExportKeysDiffer(u1: string, p1: string, c: int, e: string, t1: nat, u2: string, p2: string, f: string, t2: nat)
    ensures AudioKey(u1, p1, c, e, t1) != ExportKey(u2, p2, f, t2)
  {
    var a := AudioKey(u1, p1, c, e, t1);
    var x := ExportKey(u2, p2, f, t2);
    assert a[0] == "audio/"[0];
    assert x[0] == "exports/"[0];
  }
}
