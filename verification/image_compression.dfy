/** Image compression before upload (utils/ImageCompression.tsx).

    The file-system size query and the JPEG re-encoder are inputs: a query
    either throws or reports whether the file exists and its size; the
    re-encoder either throws or yields the URI of a new file. Qualities are
    in tenths (the source's 0.8 is 8). */
module ImageCompression {
  import opened Wrappers

  const BytesPerMB: nat := 1024 * 1024

  /** `maxSizeInMB * 1024 * 1024`. */
  function LimitInBytes(maxSizeInMB: nat): (limit: nat)
    ensures limit == maxSizeInMB * BytesPerMB
  {
    maxSizeInMB * 1024 * 1024
  }

  /** What `FileSystem.getInfoAsync(uri, { size: true })` gives. */
  datatype FileInfo = InfoFailed | Info(present: bool, size: Option<int>)

  /** What `ImageManipulator.manipulateAsync` gives. */
  datatype Encoded = EncodeFailed | EncodedAt(uri: string)

  /** Everything compressImage learns from outside for one image: the size
      query on the original, the re-encoder's answer, and whether the size
      query on the re-encoded file succeeded. */
  datatype CompressEnv = CompressEnv(info: FileInfo, encoded: Encoded, recheckOk: bool)

  /** The early return: no compression when the file is missing, has no or
      a zero size, or is within the limit. */
  function OverLimit(info: FileInfo, limit: nat): (over: bool)
    requires info.Info?
    ensures over <==> info.present && info.size.Some? && info.size.value > limit
  {
    info.present && info.size.Some? && info.size.value != 0 && info.size.value > limit
  }

  /** The quality tier as a step function of how far the size exceeds the
      limit: above 8x gives 0.2, above 4x 0.4, above 2x 0.6, otherwise the
      caller's quality. */
  function Tier(size: int, limit: nat, quality: int): (q: int)
    ensures size > 2 * limit ==> q == 2 || q == 4 || q == 6
    ensures size <= 2 * limit ==> q == quality
  {
    if size > 8 * limit then 2
    else if size > 4 * limit then 4
    else if size > 2 * limit then 6
    else quality
  }

  /** Above twice the limit the caller's quality plays no part. */
  lemma TierIgnoresCallerAboveTwice(size: int, limit: nat, quality: int, quality': int)
    requires size > 2 * limit
    ensures Tier(size, limit, quality) == Tier(size, limit, quality')
  {
  }

  /** The quality is never below 0.2 unless the caller asked for less, and
      never below the floor once the size exceeds twice the limit. */
  lemma TierFloor(size: int, limit: nat, quality: int)
    ensures Tier(size, limit, quality) >= 2 || Tier(size, limit, quality) == quality
  {
  }

  /** For a caller quality of at least 0.6, a bigger file never gets a
      higher quality. */
  lemma TierMonotone(size: int, size': int, limit: nat, quality: int)
    requires quality >= 6
    requires size <= size'
    ensures Tier(size', limit, quality) <= Tier(size, limit, quality)
  {
  }

  /** A caller quality below 0.6 breaks that: at a 1-byte limit a 2-byte
      file is encoded at the caller's 0.3 and a 3-byte file at 0.6. */
  lemma TierNotMonotoneBelowSixTenths()
    ensures Tier(2, 1, 3) == 3 && Tier(3, 1, 3) == 6
  {
  }

  /** The URI compressImage resolves to: the re-encoded file when the image
      was over the limit and every step succeeded, the original otherwise
      (early return, or any throw caught). */
  function CompressResult(uri: string, maxSizeInMB: nat, env: CompressEnv): (r: string)
    ensures r == uri || (env.encoded.EncodedAt? && r == env.encoded.uri)
    ensures env.info.InfoFailed? || env.encoded.EncodeFailed? || !env.recheckOk ==> r == uri
    ensures env.info.Info? && !OverLimit(env.info, LimitInBytes(maxSizeInMB)) ==> r == uri
    ensures (env.info.Info? && OverLimit(env.info, LimitInBytes(maxSizeInMB)) &&
             env.encoded.EncodedAt? && env.recheckOk) ==> r == env.encoded.uri
  {
    match env.info
    case InfoFailed => uri
    case Info(_, _) =>
      if !OverLimit(env.info, LimitInBytes(maxSizeInMB)) then uri
      else match env.encoded
        case EncodeFailed => uri
        case EncodedAt(out) => if env.recheckOk then out else uri
  }

  /** compressImage. `used` is the quality handed to the re-encoder, None
      when the re-encoder is not called. */
  method CompressImage(uri: string, maxSizeInMB: nat, quality: int, env: CompressEnv)
    returns (result: string, used: Option<int>)
    ensures result == CompressResult(uri, maxSizeInMB, env)
    ensures used.Some? <==> env.info.Info? && OverLimit(env.info, LimitInBytes(maxSizeInMB))
    ensures used.Some? ==> used.value == Tier(env.info.size.value, LimitInBytes(maxSizeInMB), quality)
  {
    used := None;
    if env.info.InfoFailed? {
      return uri, used;
    }
    var info := env.info;
    var maxSizeInBytes := LimitInBytes(maxSizeInMB);
    if !info.present || info.size.None? || info.size.value == 0 || info.size.value <= maxSizeInBytes {
      return uri, used;
    }
    var size := info.size.value;
    var compressionQuality := quality;
    if size > maxSizeInBytes * 2 {
      compressionQuality := 6;
    }
    if size > maxSizeInBytes * 4 {
      compressionQuality := 4;
    }
    if size > maxSizeInBytes * 8 {
      compressionQuality := 2;
    }
    used := Some(compressionQuality);
    match env.encoded
    case EncodeFailed =>
      result := uri;
    case EncodedAt(out) =>
      result := if env.recheckOk then out else uri;
  }

  /** compressImages: one result per input, in
      the same order; if the batch throws, the inputs come back as they
      were. `envs[i]` is what the outside world answers for `uris[i]`. */
  function CompressImages(uris: seq<string>, maxSizeInMB: nat, envs: seq<CompressEnv>, batchOk: bool): (r: seq<string>)
    requires |envs| == |uris|
    ensures |r| == |uris|
    ensures !batchOk ==> r == uris
    ensures batchOk ==> forall i :: 0 <= i < |r| ==> r[i] == CompressResult(uris[i], maxSizeInMB, envs[i])
  {
    if !batchOk then uris
    else seq(|uris|, i requires 0 <= i < |uris| => CompressResult(uris[i], maxSizeInMB, envs[i]))
  }

  /** Each output is its own input or that input's re-encoded file, never
      another image's. */
  lemma CompressImagesPointwise(uris: seq<string>, maxSizeInMB: nat, envs: seq<CompressEnv>, batchOk: bool, i: nat)
    requires |envs| == |uris| && i < |uris|
    ensures var r := CompressImages(uris, maxSizeInMB, envs, batchOk);
      r[i] == uris[i] || (envs[i].encoded.EncodedAt? && r[i] == envs[i].encoded.uri)
  {
  }
}
