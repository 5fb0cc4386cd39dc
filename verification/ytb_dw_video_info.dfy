/** `YtbDwVideoInfo`: a read-only view over the decoded metadata array the server sent. */
module YtbDwVideoInfo {
  import opened Wrappers
  import opened PhpValues

  /** The decoded response array, kept exactly as received. */
  datatype VideoInfo = VideoInfo(data: seq<Entry>)

  /** `getRawData()`. */
  function RawData(info: VideoInfo): Value {
    Arr(info.data)
  }

  /** A metadata accessor (`$this->data[name] ?? null`): the value stored under `name`,
      none when the key is absent or holds null. */
  function Metadata(info: VideoInfo, name: string): (r: Option<Value>)
    ensures UniqueKeys(info.data) ==>
              (r.None? <==> forall i :: 0 <= i < |info.data| && info.data[i].key == StrKey(name)
                                        ==> info.data[i].val == Null)
    ensures r.Some? ==> r.value != Null && exists i :: 0 <= i < |info.data| && info.data[i] == Entry(StrKey(name), r.value)
    ensures UniqueKeys(info.data) ==>
              forall i :: 0 <= i < |info.data| && info.data[i].key == StrKey(name) && info.data[i].val != Null
                ==> r == Some(info.data[i].val)
  {
    Field(Arr(info.data), name)
  }

  /** `getTitle()`: the stored non-null `title`, none when there is no `title` key. */
  function Title(info: VideoInfo): (r: Option<Value>)
    ensures r.Some? ==> r.value != Null && Entry(StrKey("title"), r.value) in info.data
    ensures (forall i :: 0 <= i < |info.data| ==> info.data[i].key != StrKey("title")) ==> r.None?
    ensures UniqueKeys(info.data) ==> forall v :: v != Null && Entry(StrKey("title"), v) in info.data ==> r == Some(v)
  {
    Metadata(info, "title")
  }

  /** `getDuration()`: the stored non-null `duration`, none when there is no `duration` key. */
  function Duration(info: VideoInfo): (r: Option<Value>)
    ensures r.Some? ==> r.value != Null && Entry(StrKey("duration"), r.value) in info.data
    ensures (forall i :: 0 <= i < |info.data| ==> info.data[i].key != StrKey("duration")) ==> r.None?
    ensures UniqueKeys(info.data) ==> forall v :: v != Null && Entry(StrKey("duration"), v) in info.data ==> r == Some(v)
  {
    Metadata(info, "duration")
  }

  /** `getUploader()`: the stored non-null `uploader`, none when there is no `uploader` key. */
  function Uploader(info: VideoInfo): (r: Option<Value>)
    ensures r.Some? ==> r.value != Null && Entry(StrKey("uploader"), r.value) in info.data
    ensures (forall i :: 0 <= i < |info.data| ==> info.data[i].key != StrKey("uploader")) ==> r.None?
    ensures UniqueKeys(info.data) ==> forall v :: v != Null && Entry(StrKey("uploader"), v) in info.data ==> r == Some(v)
  {
    Metadata(info, "uploader")
  }

  /** `getFormats()`: the `formats` value, an empty array when absent. */
  function Formats(info: VideoInfo): (r: Value)
    ensures Metadata(info, "formats").None? ==> r == Arr([])
    ensures Metadata(info, "formats").Some? ==> r == Metadata(info, "formats").value
  {
    Coalesce(Arr(info.data), "formats", Arr([]))
  }

  /** The text `stripos` searches for one format: its `type` entry, or `''` when absent
      (`$format['type'] ?? ''`). */
  function TypeText(format: Value): (t: string)
    ensures forall s :: Field(format, "type") == Some(Str(s)) ==> t == s
    ensures Field(format, "type").None? ==> t == ""
  {
    match Field(format, "type")
    case Some(Str(s)) => s
    case _ => ""
  }

  /** Some format's `type` contains `kind`, ignoring ASCII case. */
  predicate HasFormatOfKind(info: VideoInfo, kind: string) {
    var fs := Elements(Formats(info));
    exists i :: 0 <= i < |fs| && ContainsIgnoringCase(TypeText(fs[i]), kind)
  }

  /** The `foreach` both `has*Formats()` methods run: true at the first format whose
      `type` contains `kind`. */
  method ScanFormats(info: VideoInfo, kind: string) returns (found: bool)
    ensures found <==> HasFormatOfKind(info, kind)
  {
    var fs := Elements(Formats(info));
    var i := 0;
    while i < |fs|
      invariant 0 <= i <= |fs|
      invariant forall j :: 0 <= j < i ==> !ContainsIgnoringCase(TypeText(fs[j]), kind)
    {
      var pos := StrIPos(TypeText(fs[i]), kind);
      if pos.Some? {
        return true;
      }
      i := i + 1;
    }
    return false;
  }

  /** `hasAudioFormats()`. */
  method HasAudioFormats(info: VideoInfo) returns (r: bool)
    ensures r <==> exists f :: f in Elements(Formats(info)) && ContainsIgnoringCase(TypeText(f), "audio")
  {
    r := ScanFormats(info, "audio");
  }

  /** `hasVideoFormats()`. */
  method HasVideoFormats(info: VideoInfo) returns (r: bool)
    ensures r <==> exists f :: f in Elements(Formats(info)) && ContainsIgnoringCase(TypeText(f), "video")
  {
    r := ScanFormats(info, "video");
  }

  /** Without any format (no `formats` key, or an empty list) neither kind is present. */
  lemma NoFormatsNoKinds(info: VideoInfo, kind: string)
    requires Formats(info) == Arr([])
    ensures !HasFormatOfKind(info, kind)
  {
  }

  /** A format whose `type` entry is absent never matches a non-empty kind. */
  lemma MissingTypeNeverMatches(format: Value, kind: string)
    requires Field(format, "type").None?
    requires |kind| > 0
    ensures !ContainsIgnoringCase(TypeText(format), kind)
  {
  }

  /** The pair of formats `audio/mp4`, `VIDEO/webm` has both kinds: the second matches
      `video` although it is written in capitals. */
  lemma MixedFormatsExample()
    ensures var info := VideoInfo([Entry(StrKey("formats"), Arr([
                         Entry(IntKey(0), Arr([Entry(StrKey("type"), Str("audio/mp4"))])),
                         Entry(IntKey(1), Arr([Entry(StrKey("type"), Str("VIDEO/webm"))]))]))]);
            HasFormatOfKind(info, "audio") && HasFormatOfKind(info, "video")
  {
    var f0 := Arr([Entry(StrKey("type"), Str("audio/mp4"))]);
    var f1 := Arr([Entry(StrKey("type"), Str("VIDEO/webm"))]);
    var info := VideoInfo([Entry(StrKey("formats"), Arr([Entry(IntKey(0), f0), Entry(IntKey(1), f1)]))]);
    var fs := Elements(Formats(info));
    assert fs == [f0, f1];
    assert TypeText(f0) == "audio/mp4";
    assert MatchesAt("audio/mp4", "audio", 0);
    assert ContainsIgnoringCase(TypeText(fs[0]), "audio");
    assert TypeText(f1) == "VIDEO/webm";
    assert MatchesAt("VIDEO/webm", "video", 0);
    assert ContainsIgnoringCase(TypeText(fs[1]), "video");
  }
}
