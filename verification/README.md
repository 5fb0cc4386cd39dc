# YtbDw PHP SDK client, modelled in Dafny

The SDK is a thin client for a remote YouTube-download HTTP API. `YtbDwClient` builds one
GET request per call (`download`, `getVideoInfo` and the `downloadAudio` / `downloadVideo`
shortcuts), classifies the response, and wraps it in `YtbDwDownloadResult` or
`YtbDwVideoInfo`, or throws `YtbDwException`. The model keeps this decision logic and
turns every effect into a parameter. The `Io` record bundles the HTTP fetch, `json_decode`,
`file_put_contents` and the `uniqid()` token. A thrown exception becomes a `Failure` of a
`Result`.

Modules follow the PHP classes:

- `Wrappers`: `Option` (PHP null) and `Result` (return or throw).
- `PhpValues`: the PHP runtime pieces the client depends on. These are the values
  `json_decode($s, true)` yields, as ordered arrays keyed by int or string; truthiness;
  `isset` / `??` lookup; `rtrim` with one character; and ASCII case-insensitive `stripos`.
- `YtbDwException`: the message/code error and `getFriendlyMessage`.
- `YtbDwDownloadResult`: the download result, `isAudio` / `isVideo`, and the unit selection
  of `getFileSizeFormatted`.
- `YtbDwVideoInfo`: metadata accessors with defaults and the `has*Formats` scans.
- `YtbDwClient`: the constructor, the requests, and the `download` / `getVideoInfo`
  classification.

Behaviour of the code that the model keeps exactly:

- The endpoints are `/download.php` and `/video_info.php`.
- `quality` is sent only when PHP finds it truthy, so `""` and `"0"` are dropped like null.
  The same truthiness decides whether a caller's `outputPath` is used, so `"0"` falls back
  to the generated name.
- `download` rejects a body only when it decodes to a truthy array with a non-null `error`.
  `{"error": null}` is saved as the file.
- `getVideoInfo` reports "invalid JSON" for every falsy decode: `null` (which is also what a
  parse failure yields), `false`, `0`, `0.0`, `""`, `"0"` and `[]`.
- The format is any string. Every format other than `'audio'` gets `.mp4`, and a format
  such as `'mp3'` is neither audio nor video.
- PHP default arguments are Dafny default parameters: base URL
  `https://ytb-dw-api.onrender.com` and timeout 30 for the constructor, format `'video'`
  for `download`, quality `'720'` for `downloadVideo`, none elsewhere. The I/O record comes
  before the source's parameters so that the defaulted ones stay last.

## Model

| member | source | states |
|---|---|---|
| PhpValues.TrimTrailing | src/YtbDwClient.php:30 | `rtrim($s, '/')` returns a prefix of the input that does not end in `/`, and everything it removed is `/` |
| PhpValues.TrimTrailingUnique | src/YtbDwClient.php:30 | the trimmed URL is the only split of the input into a part not ending in `/` followed by slashes |
| YtbDwClient.NewClient | src/YtbDwClient.php:27-36 | the constructor keeps key, timeout and the two fixed headers; the stored base URL is the input without its trailing slashes; base URL and timeout default to the public service and 30 |
| YtbDwClient.NewClientDefaults | src/YtbDwClient.php:27-31 | `new YtbDwClient($key)` stores `https://ytb-dw-api.onrender.com` unchanged and timeout 30 |
| YtbDwClient.NewClientStable | src/YtbDwClient.php:30 | building a client again from its own base URL changes nothing (trimming is idempotent) |
| YtbDwClient.DownloadRequest | src/YtbDwClient.php:50-60 | the download request targets base + `/download.php` with `api_key`, `url`, `format` in that order, plus a fourth `quality` entry exactly when quality is truthy |
| YtbDwClient.DownloadQueryFields | src/YtbDwClient.php:50-58 | read back by name, the query gives the key, URL and format, gives a quality iff a truthy one was passed (`""`, `"0"`, null dropped), and no other name |
| YtbDwClient.VideoInfoRequest | src/YtbDwClient.php:108-113 | the metadata request targets base + `/video_info.php` with exactly `api_key` and `url`, sent with the client's timeout and headers |
| YtbDwClient.VideoInfoQueryFields | src/YtbDwClient.php:108-113 | read back by name, the metadata query gives the key and the URL and no other name |
| YtbDwClient.IsErrorPayload | src/YtbDwClient.php:79 | `$jsonResponse && isset($jsonResponse['error'])` holds exactly when `isset` does; the truthiness test never changes the answer |
| YtbDwClient.PayloadError | src/YtbDwClient.php:80 | the thrown error carries a string `error` as its message and an integer `code` as its code, 0 when `code` is absent or null |
| YtbDwClient.ErrorPayloadExactly | src/YtbDwClient.php:78-81 | a decoded body is an error report iff it is an array with a non-null `error`; undecodable bodies, scalars and JSON lists never are |
| YtbDwClient.DefaultOutputPath | src/YtbDwClient.php:84-87 | the generated name is `ytb_download_` + token + 4-char extension, ending `.mp3` iff the format is exactly `'audio'` and `.mp4` otherwise; the token can be read back |
| YtbDwClient.OutputPath | src/YtbDwClient.php:84-87 | a truthy caller path is used verbatim, any falsy one (null, `""`, `"0"`) gives the generated name |
| YtbDwClient.Download | src/YtbDwClient.php:48-97 | format defaults to `'video'`, quality and path to none; success iff the fetch returned a body that is not an error report and the write succeeded, with path, written count and format as given; an error report fails with its `error` and `code ?? 0`; transport and write failures fail with code 0 and their fixed prefixes |
| YtbDwClient.DownloadSavesWholeBody | src/YtbDwClient.php:89-96 | a non-error body of N bytes written in full yields a result of size N at the resolved path |
| YtbDwClient.DownloadAudio | src/YtbDwClient.php:152-155 | `downloadAudio` is `download` with `'audio'`; its results are audio, never video, and end in `.mp3` without a caller path |
| YtbDwClient.DownloadVideo | src/YtbDwClient.php:166-169 | `downloadVideo` is `download` with `'video'` and quality `'720'` unless given; its results are video, never audio, and end in `.mp4` without a caller path |
| YtbDwClient.DefaultArguments | src/YtbDwClient.php:48-169 | with only a URL, `download` (line 48) asks for `'video'` without quality, `downloadAudio` (line 152) for `'audio'` without quality, and `downloadVideo` (line 166) for `'video'` with `quality=720` |
| YtbDwClient.GetVideoInfo | src/YtbDwClient.php:106-141 | three outcomes: falsy decode gives "Réponse JSON invalide" with code 0; falsy or missing `success` gives `error ?? 'Erreur inconnue'` and `code ?? 0`; otherwise success, whose raw data is the decoded array unchanged |
| YtbDwClient.VideoInfoNotFound | src/YtbDwClient.php:136-138 | `{"success": false, "error": "not found", "code": 404}` fails with message "not found" and code 404 |
| YtbDwClient.BadKeyRejectedByBothCalls | src/YtbDwClient.php:77-81 | `{"error": "bad key", "code": 401}` makes both `download` and `getVideoInfo` fail with code 401, whose friendly text is the invalid-key one |
| PhpValues.Truthy | src/YtbDwClient.php:132 | a decoded value is false exactly when it is `null`, `false`, `0`, `0.0`, `""`, `"0"` or `[]` |
| PhpValues.TruthyString | src/YtbDwClient.php:56 | a `?string` argument is false exactly when it is null, `""` or `"0"` |
| PhpValues.Field | src/YtbDwClient.php:137 | `$v['k'] ?? …` finds a value only in an array, only a non-null one, only one stored under `k`, and nothing when `k` is absent |
| PhpValues.IssetExactly | src/YtbDwClient.php:79 | for an array with unique keys, `isset($a['k'])` holds iff some entry has key `k` and a non-null value |
| PhpValues.StrIPos | src/YtbDwClient.php:266 | `stripos` returns the first offset of a case-insensitive match, and none exactly when there is no match |
| YtbDwVideoInfo.Metadata | src/YtbDwClient.php:238-251 | a metadata accessor returns none exactly when the key is absent or null, otherwise the stored non-null value |
| YtbDwVideoInfo.Title | src/YtbDwClient.php:238-241 | `getTitle` returns the stored `title` when it is non-null, and none when there is no `title` key |
| YtbDwVideoInfo.Duration | src/YtbDwClient.php:243-246 | `getDuration` returns the stored `duration` when it is non-null, and none when there is no `duration` key |
| YtbDwVideoInfo.Uploader | src/YtbDwClient.php:248-251 | `getUploader` returns the stored `uploader` when it is non-null, and none when there is no `uploader` key |
| YtbDwVideoInfo.Formats | src/YtbDwClient.php:253-256 | `getFormats` returns the stored `formats` value, or an empty array when it is absent |
| YtbDwVideoInfo.TypeText | src/YtbDwClient.php:266 | `$format['type'] ?? ''` gives a string `type` as it is and `''` when `type` is absent or null |
| YtbDwVideoInfo.ScanFormats | src/YtbDwClient.php:263-281 | the early-return `foreach` answers true iff some format's `type` contains the kind, ignoring case |
| YtbDwVideoInfo.HasAudioFormats | src/YtbDwClient.php:263-271 | true iff some format's `type` case-insensitively contains `audio` |
| YtbDwVideoInfo.HasVideoFormats | src/YtbDwClient.php:273-281 | true iff some format's `type` case-insensitively contains `video` |
| YtbDwVideoInfo.NoFormatsNoKinds | src/YtbDwClient.php:253-270 | with no formats (key absent or empty list) neither kind is present |
| YtbDwVideoInfo.MissingTypeNeverMatches | src/YtbDwClient.php:266 | a format without `type` is searched as `''` and never matches |
| YtbDwVideoInfo.MixedFormatsExample | src/YtbDwClient.php:263-281 | formats `audio/mp4` and `VIDEO/webm` give both kinds |
| YtbDwDownloadResult.IsAudio | src/YtbDwClient.php:215-218 | `isAudio` is the exact comparison with `'audio'`, so it never holds for `'video'` |
| YtbDwDownloadResult.IsVideo | src/YtbDwClient.php:220-223 | `isVideo` is the exact comparison with `'video'`, so it never holds for `'audio'` |
| YtbDwDownloadResult.KindsAreExclusive | src/YtbDwClient.php:215-223 | `isAudio` and `isVideo` are never both true, and a format other than the two names satisfies neither |
| YtbDwDownloadResult.UnitIndex | src/YtbDwClient.php:201-205 | the unit index is below 4, the size exceeds 1024^k for every k up to it, and the size is at most 1024^(index+1) unless the unit is GB |
| YtbDwDownloadResult.FileSizeFormatted | src/YtbDwClient.php:198-208 | the division loop stops at that unit; the shown value is the exact quotient, at most 1024 unless in GB and above 1 unless in B |
| YtbDwDownloadResult.ScaleStep | src/YtbDwClient.php:203-204 | one division by 1024 moves the value to the next unit, and the loop guard `bytes > 1024` is the test size > 1024^(i+1) |
| YtbDwDownloadResult.FormattedSizeExamples | src/YtbDwClient.php:198-208 | 500 is 500 B, 1024 stays 1024 B, 2048 is 2 KB, 1572864 is 1.5 MB |
| YtbDwException.FriendlyMessage | src/YtbDwClient.php:297-313 | codes 400, 401, 403, 404, 429 get one of the five fixed texts; every other code, 0 included, returns the raw message |
| YtbDwException.FriendlyMessageByCode | src/YtbDwClient.php:299-309 | for known codes the text ignores the raw message, and two known codes share a text iff they are equal |
| YtbDwException.FriendlyMessageTable | src/YtbDwClient.php:299-309 | whatever the raw message, 400 gives the invalid-parameters text, 401 the invalid-key text, 403 the forbidden text, 404 the not-found text and 429 the quota text |

## Left out

- HTTP transport (`stream_context_create`, `file_get_contents`, the timeout and headers, `error_get_last`): the fetch is `Io.fetch`. Its failure carries only the optional last-error message. The request records timeout and headers but nothing interprets them.
- `http_build_query` percent-encoding: the query is an ordered list of name/value pairs.
- `json_decode` parsing: `Io.jsonDecode` supplies the decoded value. `Null` stands for both a parse failure and a literal `null`. `json_decode` returns `null` for both, and this code never asks `json_last_error()` which it was.
- `file_put_contents` and `uniqid()`: `Io.store` returns a byte count or failure, and `Io.uniqid` supplies the token.
- `round($bytes, 2)` and the float-to-string rendering in `getFileSizeFormatted`: floating point. The model gives the unit and the exact quotient as a real.
- YtbDwException.MessageOf and YtbDwException.CodeOf: the exception constructor's typed parameters coerce JSON values in ways the model covers only in part. A string or boolean `error` and an integer or boolean `code` are converted as PHP does. Other shapes are not modelled, and the model gives `""` / `0` for them. In PHP a numeric or float `error` is rendered as text. A numeric string or float `code` is converted to an integer. A non-numeric string `code` such as `"E401"` throws a `TypeError`, and so does an array in either field.
- YtbDwClient.GetVideoInfo: a decoded truthy scalar such as `5` or `"x"` is treated as having no `success` key. For numbers and booleans this matches PHP, which reads null with a warning. For strings the outcome of `$data['success']` depends on the engine version.
- YtbDwVideoInfo.Metadata: the `?string` return type of `getTitle` / `getDuration` / `getUploader` would coerce numbers to strings and throw on arrays. The model returns the stored value as decoded.
- YtbDwVideoInfo.Title: as for Metadata, a non-string `title` is returned as decoded, not coerced by `?string`.
- YtbDwVideoInfo.Duration: as for Metadata, a numeric `duration` is returned as decoded, where PHP would coerce it to a string.
- YtbDwVideoInfo.Uploader: as for Metadata, a non-string `uploader` is returned as decoded, not coerced by `?string`.
- YtbDwVideoInfo.Formats: the `array` return type throws a `TypeError` when `formats` holds a scalar. The model returns the scalar, and the scans then see no formats.
- YtbDwVideoInfo.TypeText: a `type` holding an array makes `stripos` throw a `TypeError`; the model treats it as not matching. A non-string scalar `type` is searched as `''`. That is exact, because no number or boolean renders to text containing `audio` or `video`.
- PhpValues.StrIPos: case folding is ASCII only, as in PHP 8.2 and later. Earlier versions folded by locale.
- PhpValues.FindKey: the first entry with a key wins. Arrays from `json_decode` never repeat a key, and the decoder parameter is trusted to turn numeric object keys into integer keys as PHP does.
- The trivial getters (`getFilePath`, `getFileSize`, `getFormat`, `getRawData`) are datatype fields or one-line functions without a contract. The exception's unused `$previous` argument is also not modelled.
- The commented-out usage example at the end of the file.
