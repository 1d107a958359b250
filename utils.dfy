/** The hash-derived cache filename of `utils.URLToFilename`: the
    lowercase hex SHA-256 of the URL's bytes followed by `.json`. */
module Utils {
  import opened Common
  import Hex

  const JsonSuffix: string := ".json"

  /** The URL is taken as the bytes of the Go string (`[]byte(url)`). */
  function URLToFilename(sha256: Hex.Sha256, url: seq<byte>): (name: string)
    ensures |name| == 69
    ensures name[64..] == JsonSuffix
    ensures Hex.IsHexString(name[..64])
  {
    var name := Hex.Encode(sha256(url)) + JsonSuffix;
    assert name[..64] == Hex.Encode(sha256(url));
    name
  }

  /** The 64-character prefix decodes back to the 32 hash bytes. */
  lemma URLToFilenameDecodes(sha256: Hex.Sha256, url: seq<byte>)
    ensures Hex.Decode(URLToFilename(sha256, url)[..64]) == Some(sha256(url))
  {
    var name := URLToFilename(sha256, url);
    assert name[..64] == Hex.Encode(sha256(url));
    Hex.EncodeDecode(sha256(url));
  }

  /** Two URLs share a filename exactly when they share a hash: the name
      loses nothing of the hash, and equal inputs give equal names. */
  lemma URLToFilenameSameIffSameHash(sha256: Hex.Sha256, u1: seq<byte>, u2: seq<byte>)
    ensures URLToFilename(sha256, u1) == URLToFilename(sha256, u2) <==> sha256(u1) == sha256(u2)
  {
    var n1, n2 := URLToFilename(sha256, u1), URLToFilename(sha256, u2);
    if n1 == n2 {
      URLToFilenameDecodes(sha256, u1);
      URLToFilenameDecodes(sha256, u2);
    }
  }
}
