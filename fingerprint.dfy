/** The cache key of main.py: "resume:" followed by the lower-case hex SHA-256
    digest of the résumé and the job description concatenated. SHA-256 itself
    is foreign; it is supplied as a function that yields 64 hex digits. */
module Fingerprint {

  const KeyPrefix := "resume:"
  const DigestLength: nat := 64

  predicate IsHexDigit(c: char)
  {
    '0' <= c <= '9' || 'a' <= c <= 'f'
  }

  /** What hashlib.sha256(...).hexdigest() returns: 64 lower-case hex digits. */
  predicate IsHexDigest(d: string)
  {
    |d| == DigestLength && forall i :: 0 <= i < |d| ==> IsHexDigit(d[i])
  }

  /** `n` copies of the digit zero. */
  function Zeros(n: nat): (d: string)
    ensures |d| == n && forall i :: 0 <= i < n ==> d[i] == '0'
  {
    if n == 0 then "" else "0" + Zeros(n - 1)
  }

  type HexDigest = d: string | IsHexDigest(d)
    witness Zeros(DigestLength)

  /** SHA-256 of the UTF-8 encoding of a string, as a hex digest. */
  type Sha256 = string -> HexDigest

  /** cache_key(resume, jd). */
  function CacheKey(sha256: Sha256, resume: string, jd: string): (key: string)
    ensures |key| == |KeyPrefix| + DigestLength
    ensures key[..|KeyPrefix|] == KeyPrefix
    ensures IsHexDigest(key[|KeyPrefix|..])
    ensures key[|KeyPrefix|..] == sha256(resume + jd)
  {
    KeyPrefix + sha256(resume + jd)
  }

  /** The digest part of a key built by CacheKey. */
  function DigestOf(key: string): string
    requires |key| >= |KeyPrefix|
  {
    key[|KeyPrefix|..]
  }

  /** Only the concatenation is hashed: two requests whose résumé and job
      description join to the same string share a key, and two keys are the
      same exactly when the digests of the joined strings are. */
  lemma CacheKeyOfConcatenation(sha256: Sha256, r1: string, j1: string, r2: string, j2: string)
    ensures r1 + j1 == r2 + j2 ==> CacheKey(sha256, r1, j1) == CacheKey(sha256, r2, j2)
    ensures CacheKey(sha256, r1, j1) == CacheKey(sha256, r2, j2) <==> sha256(r1 + j1) == sha256(r2 + j2)
  {
    var k1, k2 := CacheKey(sha256, r1, j1), CacheKey(sha256, r2, j2);
    if k1 == k2 {
      assert DigestOf(k1) == DigestOf(k2);
    }
  }

  /** The boundary between résumé and job description is not part of the
      key: ("ab", "c") and ("a", "bc") collide. */
  lemma BoundaryNotHashed(sha256: Sha256)
    ensures CacheKey(sha256, "ab", "c") == CacheKey(sha256, "a", "bc")
  {
    assert "ab" + "c" == "a" + "bc";
  }
}
