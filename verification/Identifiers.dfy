/** The textual identifiers the pipeline derives: upload keys, and the keys the ERP deduplicates on. */
module Identifiers {
  /** A UUID in its 36-character text form. */
  type Uuid = text: string | |text| == 36 witness "00000000-0000-0000-0000-000000000000"

  function ErpKey(documentId: Uuid, invoiceNumber: string): string {
    documentId + ":" + invoiceNumber
  }

  /** The document an ERP key was built for. */
  ghost predicate KeyOf(key: string, documentId: Uuid) {
    |key| > 36 && key[..36] == documentId && key[36] == ':'
  }

  /** An ERP key names its document and its invoice number, and is never empty. */
  lemma ErpKeyInjective(a: Uuid, n: string, b: Uuid, m: string)
    ensures ErpKey(a, n) == ErpKey(b, m) <==> a == b && n == m
    ensures KeyOf(ErpKey(a, n), b) <==> a == b
    ensures ErpKey(a, n) != ""
  {
    assert ErpKey(a, n)[..36] == a && ErpKey(a, n)[37..] == n;
    assert ErpKey(b, m)[..36] == b && ErpKey(b, m)[37..] == m;
  }

  /** What the model asks of SHA-256 hex digests: no two inputs collide, and a digest has no colon. */
  ghost predicate CollisionFree(sha: string -> string) {
    && (forall a, b :: sha(a) == sha(b) ==> a == b)
    && (forall a :: ':' !in sha(a))
  }

  function UploadKey(sha: string -> string, sourceMessageId: string, contentHash: string): string {
    sha(sourceMessageId + ":" + contentHash)
  }

  lemma SplitAtLastColon(s: string, h: string, t: string, g: string)
    requires s + ":" + h == t + ":" + g
    requires ':' !in h && ':' !in g
    ensures s == t && h == g
  {
    var text := s + ":" + h;
    assert forall i :: |s| < i < |text| ==> text[i] == h[i - |s| - 1];
    assert forall i :: |t| < i < |text| ==> text[i] == g[i - |t| - 1];
    assert text[|s|] == ':' && text[|t|] == ':';
    assert |s| == |t|;
    assert text[..|s|] == s && text[..|t|] == t;
    assert text[|s| + 1..] == h && text[|t| + 1..] == g;
  }

  /** Two uploads share a key exactly when they share source message id and content. */
  lemma UploadKeyInjective(sha: string -> string, s: string, c: string, t: string, d: string)
    requires CollisionFree(sha)
    ensures UploadKey(sha, s, sha(c)) == UploadKey(sha, t, sha(d)) <==> s == t && c == d
  {
    if UploadKey(sha, s, sha(c)) == UploadKey(sha, t, sha(d)) {
      SplitAtLastColon(s, sha(c), t, sha(d));
    }
  }
}
