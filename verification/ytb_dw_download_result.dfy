/** `YtbDwDownloadResult`: the value a successful download returns, and its human-readable
    size with binary prefixes. */
module YtbDwDownloadResult {

  /** The saved path, the byte count the write reported and the requested format string,
      all stored as given. */
  datatype DownloadResult = DownloadResult(filePath: string, fileSize: int, format: string)

  /** `isAudio()`: the format is exactly `'audio'`, so an audio result is never video. */
  predicate IsAudio(r: DownloadResult)
    ensures IsAudio(r) ==> r.format != "video"
  {
    r.format == "audio"
  }

  /** `isVideo()`: the format is exactly `'video'`, so a video result is never audio. */
  predicate IsVideo(r: DownloadResult)
    ensures IsVideo(r) ==> r.format != "audio"
  {
    r.format == "video"
  }

  /** A result is never both audio and video, and a format outside the two names (such as
      `'mp3'`) is neither. */
  lemma KindsAreExclusive(r: DownloadResult)
    ensures !(IsAudio(r) && IsVideo(r))
    ensures r.format !in {"audio", "video"} ==> !IsAudio(r) && !IsVideo(r)
  {
  }

  // ---------------------------------------------------------------------------
  // getFileSizeFormatted()

  /** The unit table, indexed by the number of divisions by 1024. */
  const Units: seq<string> := ["B", "KB", "MB", "GB"]

  function Pow1024(n: nat): (p: nat)
    ensures p >= 1
  {
    if n == 0 then 1 else 1024 * Pow1024(n - 1)
  }

  /** The unit a size is shown in: one step up per power of 1024 the size exceeds,
      stopping at GB. */
  function UnitIndex(size: int): (i: nat)
    ensures i < |Units|
    ensures forall k: nat :: 1 <= k <= i ==> size > Pow1024(k)
    ensures i < |Units| - 1 ==> size <= Pow1024(i + 1)
  {
    PowValues();
    if size <= 1024 then 0
    else if size <= 1048576 then 1
    else if size <= 1073741824 then 2
    else 3
  }

  lemma PowValues()
    ensures Pow1024(0) == 1 && Pow1024(1) == 1024 && Pow1024(2) == 1048576
    ensures Pow1024(3) == 1073741824 && Pow1024(4) == 1099511627776
  {
  }

  /** The number shown before rounding: the size in the chosen unit, exactly. */
  function ScaledSize(size: int): real {
    size as real / Pow1024(UnitIndex(size)) as real
  }

  /** What `getFileSizeFormatted()` shows: a number and a unit. */
  datatype SizeDisplay = SizeDisplay(value: real, unit: string)

  /** `getFileSizeFormatted()`: divide by 1024 while the value exceeds 1024 and a larger
      unit remains. */
  method FileSizeFormatted(r: DownloadResult) returns (shown: SizeDisplay)
    ensures shown == SizeDisplay(ScaledSize(r.fileSize), Units[UnitIndex(r.fileSize)])
    ensures shown.value * Pow1024(UnitIndex(r.fileSize)) as real == r.fileSize as real
    ensures shown.unit != "GB" ==> shown.value <= 1024.0
    ensures shown.unit != "B" ==> shown.value > 1.0
  {
    var size := r.fileSize;
    var bytes := size as real;
    var i: nat := 0;
    while bytes > 1024.0 && i < |Units| - 1
      invariant i <= UnitIndex(size)
      invariant bytes * Pow1024(i) as real == size as real
    {
      ScaleStep(size, bytes, i);
      bytes := bytes / 1024.0;
      i := i + 1;
    }
    ScaleStep(size, bytes, i);
    assert i == UnitIndex(size);
    shown := SizeDisplay(bytes, Units[i]);
  }

  /** With `bytes` the size measured in units of 1024^i: dividing by 1024 measures it in
      the next unit, `bytes` exceeds 1 (1024) exactly when the size exceeds 1024^i
      (1024^(i+1)), and `bytes` is the exact quotient. */
  lemma ScaleStep(size: int, bytes: real, i: nat)
    requires i < |Units|
    requires bytes * Pow1024(i) as real == size as real
    ensures (bytes / 1024.0) * Pow1024(i + 1) as real == size as real
    ensures bytes > 1024.0 <==> size > Pow1024(i + 1)
    ensures bytes > 1.0 <==> size > Pow1024(i)
    ensures bytes == size as real / Pow1024(i) as real
  {
    PowValues();
    if i == 0 {
    } else if i == 1 {
    } else if i == 2 {
    } else {
    }
  }

  /** Sample sizes: 500 B, 2 KB, 1.5 MB; 1024 itself stays in bytes, since the loop divides
      only while the value exceeds 1024. */
  lemma FormattedSizeExamples()
    ensures UnitIndex(500) == 0 && ScaledSize(500) == 500.0
    ensures UnitIndex(1024) == 0 && ScaledSize(1024) == 1024.0
    ensures UnitIndex(2048) == 1 && ScaledSize(2048) == 2.0
    ensures UnitIndex(1572864) == 2 && ScaledSize(1572864) == 1.5
  {
  }
}
