/** Files kept in GridFS: the `data:` URI accepted when a project image is
    uploaded, and the file records and stored blobs the two constructors
    produce. The URI form is a simplified version of section 2 of RFC 2397:
    the media type defaults to `text/plain` with no charset, and only the
    second `;`-segment is looked at for `base64`. */
module GridFiles {
  import opened Wrappers
  import opened Hex
  import opened Seqs
  import opened ServerRuntime

  /** Python's `.` matches every character except a newline. */
  predicate NoNewline(s: string)
  {
    '\n' !in s
  }

  // The optional group of the pattern, alternative by alternative: any text
  // holding a slash and ending in ";base64", any text holding a slash, or
  // exactly ";base64".
  predicate GroupMatches(g: string)
  {
    (|g| >= 7 && g[|g| - 7..] == ";base64" && '/' in g[..|g| - 7])
    || '/' in g
    || g == ";base64"
  }

  // A full match of the pattern  ^data:(.*/.*;base64|.*/.*|;base64)?,.*
  // the prefix "data:", then some comma whose preceding text is empty or
  // matches the group (the group may itself contain commas), and no newline
  // anywhere.
  ghost predicate MatchesPattern(s: string)
  {
    NoNewline(s) && |s| >= 5 && s[..5] == "data:" &&
    exists i :: 5 <= i < |s| && s[i] == ',' && (i == 5 || GroupMatches(s[5..i]))
  }

  /** Some comma follows the first slash of `t`. */
  predicate CommaAfterSlash(t: string)
  {
    '/' in t && ',' in t[FirstIndex(t, '/') + 1..]
  }

  /** A direct test for the pattern: the comma comes right after `data:`,
      or right after `data:;base64`, or somewhere after a slash. */
  predicate MatchesDataUri(s: string)
  {
    NoNewline(s) && |s| >= 6 && s[..5] == "data:" &&
    (s[5] == ',' || (|s| >= 13 && s[5..12] == ";base64" && s[12] == ',') || CommaAfterSlash(s[5..]))
  }

  /** The direct test accepts exactly the strings the pattern matches. */
  lemma DataUriMatcherCorrect(s: string)
    ensures MatchesDataUri(s) <==> MatchesPattern(s)
  {
    if MatchesDataUri(s) {
      if s[5] == ',' {
      } else if |s| >= 13 && s[5..12] == ";base64" && s[12] == ',' {
        assert GroupMatches(s[5..12]);
      } else {
        var t := s[5..];
        var j := FirstIndex(t, '/');
        var k :| 0 <= k < |t[j + 1..]| && t[j + 1..][k] == ',';
        var i := 5 + j + 1 + k;
        assert s[i] == ',';
        assert s[5..i][j] == '/';
        assert GroupMatches(s[5..i]);
      }
    }
    if MatchesPattern(s) {
      var i :| 5 <= i < |s| && s[i] == ',' && (i == 5 || GroupMatches(s[5..i]));
      if i != 5 {
        var g := s[5..i];
        var t := s[5..];
        if g == ";base64" {
          assert s[5..12] == g;
        } else {
          assert '/' in g;
          var m :| 0 <= m < |g| && g[m] == '/';
          assert t[m] == '/';
          var j := FirstIndex(t, '/');
          assert j <= m;
          assert t[j + 1..][i - 5 - j - 1] == ',';
        }
      }
    }
  }

  /** The parts of an accepted URI: `info` sits between `data:` and the
      first comma, `payload` is everything after that comma. */
  datatype DataUri = DataUri(info: string, mime: string, base64: bool, payload: string)

  /** The header/payload split and media-type analysis of
      `GridFile.create_from_data_url`. */
  function ParseDataUri(s: string): (r: Result<DataUri, Exception>)
    ensures r.Err? <==> !MatchesPattern(s)
    ensures r.Err? ==> r.error == ValueError("Invalid data URI `" + s + "`")
    ensures r.Ok? ==> s == "data:" + r.value.info + "," + r.value.payload && ',' !in r.value.info
    ensures r.Ok? ==>
              var h := Split(r.value.info, ';')[0];
              r.value.mime == (if h == "" then "text/plain" else h)
    ensures r.Ok? ==>
              (r.value.base64 <==> Base64AfterFirst(r.value.info, |Split(r.value.info, ';')[0]|))
  {
    DataUriMatcherCorrect(s);
    if !MatchesDataUri(s) then Err(ValueError("Invalid data URI `" + s + "`"))
    else
      HeaderShape(s);
      var c := FirstIndex(s, ',');
      var header, payload := s[..c], s[c + 1..];
      var info := header[FirstIndex(header, ':') + 1..];
      var parts := Split(info, ';');
      var mime := if |parts[0]| > 0 then parts[0] else "text/plain";
      var base64 := |parts| >= 2 && parts[1] == "base64";
      SecondSegment(info);
      Ok(DataUri(info, mime, base64, payload))
  }

  /** In an accepted URI the first comma comes after `data:`, so the colon
      the header is split at is the one of `data:`. */
  lemma HeaderShape(s: string)
    requires MatchesDataUri(s)
    ensures ',' in s
    ensures var c := FirstIndex(s, ',');
            5 <= c && ':' in s[..c] && FirstIndex(s[..c], ':') == 4 &&
            s == "data:" + s[5..c] + "," + s[c + 1..] && ',' !in s[5..c]
  {
    DataUriMatcherCorrect(s);
    var c := FirstIndex(s, ',');
    assert s[..5] == "data:";
    assert 5 <= c;
    var header := s[..c];
    assert header[4] == ':';
    assert header[..4] == "data";
    assert ',' !in s[5..c] by {
      assert s[5..c] == s[..c][5..];
    }
    assert s == "data:" + s[5..c] + "," + s[c + 1..] by {
      assert s[..c] == s[..5] + s[5..c];
      assert s == s[..c] + [s[c]] + s[c + 1..];
    }
  }

  /** The second `;`-segment of `info` is exactly `base64`. */
  predicate SecondSegmentIsBase64(info: string)
  {
    var parts := Split(info, ';');
    |parts| >= 2 && parts[1] == "base64"
  }

  /** `;base64` follows the first `;`-segment (of length `k`) and is itself
      followed by `;` or by the end of `info`. */
  predicate Base64AfterFirst(info: string, k: nat)
  {
    k + 7 <= |info| && info[k..k + 7] == ";base64" && (k + 7 == |info| || info[k + 7] == ';')
  }

  /** Which `;`-segment decides the encoding, stated without splitting. */
  lemma SecondSegment(info: string)
    ensures SecondSegmentIsBase64(info) <==> Base64AfterFirst(info, |Split(info, ';')[0]|)
  {
    var k := |Split(info, ';')[0]|;
    if ';' in info {
      SecondSegmentAfterSeparator(info);
    }
  }

  lemma SecondSegmentAfterSeparator(info: string)
    requires ';' in info
    ensures SecondSegmentIsBase64(info) <==> Base64AfterFirst(info, |Split(info, ';')[0]|)
  {
    var parts := Split(info, ';');
    var k := |parts[0]|;
    SplitTail(info, ';');
    var rest := info[k + 1..];
    var tail := Split(rest, ';');
    assert parts[1] == tail[0];
    FirstPieceIs(rest, ';', "base64");
    assert info[k] == ';';
    assert SecondSegmentIsBase64(info) <==> tail[0] == "base64";
    RestOfSegment(info, k);
  }

  lemma RestOfSegment(info: string, k: nat)
    requires k < |info| && info[k] == ';'
    ensures var rest := info[k + 1..];
            Base64AfterFirst(info, k) <==>
              6 <= |rest| && rest[..6] == "base64" && (6 == |rest| || rest[6] == ';')
  {
    var rest := info[k + 1..];
    if k + 7 <= |info| {
      var w := info[k..k + 7];
      assert w[1..] == info[k + 1..k + 7] == rest[..6];
      assert w == [w[0]] + w[1..];
      assert ";base64" == [';'] + "base64" && ";base64"[1..] == "base64";
      assert k + 7 < |info| ==> info[k + 7] == rest[6];
    }
  }

  /** `file_<id><extension>`, with `.bin` when no extension is guessed. */
  function GeneratedName(fileId: string, guessed: Option<string>): string
  {
    "file_" + fileId + (if guessed.Some? && guessed.value != "" then guessed.value else ".bin")
  }

  /** The record saved in the `grid_file_data` collection. */
  datatype GridFile = GridFile(
    id: string,
    fileName: string,
    fileType: string,
    ownerCollection: string,
    ownerId: string)

  /** What GridFS holds under the same id: the name, the bytes, and the
      `contentType` and `owner` metadata. */
  datatype Blob = Blob(id: string, fileName: string, content: seq<byte>, contentType: string, owner: string)

  /** The record and the blob a constructor writes together. */
  datatype Upload = Upload(file: GridFile, blob: Blob)

  /** The file type `GridFile.create` assumes when none is given. */
  const DefaultFileType := "application/octet-stream"

  /** The owner metadata, `<collection>:<id>`. */
  function OwnerTag(ownerCollection: string, ownerId: string): string
  {
    ownerCollection + ":" + ownerId
  }

  /** `GridFile.create`: a name that is given and non-empty is kept;
      otherwise one is generated from the id and the extension guessed for
      the file type. */
  function Create(content: seq<byte>, ownerCollection: string, ownerId: string,
                  fileId: string, prims: Primitives,
                  fileName: Option<string> := None, fileType: string := DefaultFileType): (u: Upload)
    ensures u.file == GridFile(u.file.id, u.file.fileName, fileType, ownerCollection, ownerId)
    ensures u.file.id == fileId == u.blob.id && u.blob.fileName == u.file.fileName
    ensures u.blob.content == content && u.blob.contentType == fileType
    ensures u.blob.owner == OwnerTag(ownerCollection, ownerId)
    ensures fileName.Some? && fileName.value != "" ==> u.file.fileName == fileName.value
    ensures fileName.None? || fileName.value == "" ==>
              u.file.fileName == GeneratedName(fileId, prims.guessExtension(fileType))
  {
    var name := if fileName.Some? && fileName.value != "" then fileName.value
                else GeneratedName(fileId, prims.guessExtension(fileType));
    Upload(GridFile(fileId, name, fileType, ownerCollection, ownerId),
           Blob(fileId, name, content, fileType, OwnerTag(ownerCollection, ownerId)))
  }

  /** `GridFile.create_from_data_url`: parse, decode the payload (base64, or
      the text's own encoding), and store it with the derived media type. */
  function CreateFromDataUrl(content: string, ownerCollection: string, ownerId: string,
                             fileId: string, prims: Primitives): (r: Result<Upload, Exception>)
    ensures ParseDataUri(content).Err? ==> r == Err(ParseDataUri(content).error)
    ensures ParseDataUri(content).Ok? ==>
              var d := ParseDataUri(content).value;
              if d.base64 && prims.b64decode(d.payload).None? then r == Err(DecodeError)
              else
                r.Ok? &&
                r.value.blob.content ==
                  (if d.base64 then prims.b64decode(d.payload).value else prims.utf8(d.payload)) &&
                r.value.file == GridFile(fileId, GeneratedName(fileId, prims.guessExtension(d.mime)),
                                         d.mime, ownerCollection, ownerId) &&
                r.value.blob.contentType == d.mime &&
                r.value.blob.owner == OwnerTag(ownerCollection, ownerId)
    ensures r.Ok? ==> r.value.blob.id == r.value.file.id && r.value.blob.fileName == r.value.file.fileName
    ensures r.Err? ==> IsValueError(r.error)
  {
    match ParseDataUri(content)
    case Err(e) => Err(e)
    case Ok(d) =>
      var bytes := if d.base64 then prims.b64decode(d.payload) else Some(prims.utf8(d.payload));
      if bytes.None? then Err(DecodeError)
      else
        var name := GeneratedName(fileId, prims.guessExtension(d.mime));
        Ok(Upload(GridFile(fileId, name, d.mime, ownerCollection, ownerId),
                  Blob(fileId, name, bytes.value, d.mime, OwnerTag(ownerCollection, ownerId))))
  }

  /** A data-URL upload is the plain upload of the decoded payload with
      no name and the parsed media type: both constructors store the same
      record and blob. */
  lemma DataUrlUploadIsCreate(content: string, ownerCollection: string, ownerId: string,
                              fileId: string, prims: Primitives)
    ensures CreateFromDataUrl(content, ownerCollection, ownerId, fileId, prims).Ok? ==>
              var d := ParseDataUri(content).value;
              var bytes := if d.base64 then prims.b64decode(d.payload).value else prims.utf8(d.payload);
              CreateFromDataUrl(content, ownerCollection, ownerId, fileId, prims).value ==
                Create(bytes, ownerCollection, ownerId, fileId, prims, None, d.mime)
  {
  }

  /** The media type is never empty and never holds a `;`. */
  lemma MediaTypeIsOneSegment(s: string)
    ensures ParseDataUri(s).Ok? ==> var m := ParseDataUri(s).value.mime; m != "" && ';' !in m
  {
  }

  /** The part before the first comma determines both halves of a URI. */
  lemma FirstCommaSplits(s: string, info1: string, info2: string, p1: string, p2: string)
    requires s == "data:" + info1 + "," + p1 && ',' !in info1
    requires s == "data:" + info2 + "," + p2 && ',' !in info2
    ensures info1 == info2 && p1 == p2
  {
    CommaAfterInfo(s, info1, p1);
    CommaAfterInfo(s, info2, p2);
    assert info1 == s[5..5 + |info1|] == info2;
    assert p1 == s[6 + |info1|..] == p2;
  }

  lemma CommaAfterInfo(s: string, info: string, payload: string)
    requires s == "data:" + info + "," + payload && ',' !in info
    ensures ',' in s && FirstIndex(s, ',') == 5 + |info|
  {
    var k := 5 + |info|;
    assert s[k] == ',';
    assert s[..k] == "data:" + info;
    FirstIndexIs(s, ',', k);
  }

  /** An accepted URI is split at its first comma only: the payload keeps
      every later comma. */
  lemma PayloadKeepsCommas(info: string, payload: string)
    requires ',' !in info && MatchesPattern("data:" + info + "," + payload)
    ensures ParseDataUri("data:" + info + "," + payload).Ok?
    ensures ParseDataUri("data:" + info + "," + payload).value.info == info
    ensures ParseDataUri("data:" + info + "," + payload).value.payload == payload
  {
    var s := "data:" + info + "," + payload;
    var d := ParseDataUri(s).value;
    FirstCommaSplits(s, d.info, info, d.payload, payload);
  }

  /** The optional group may run past the first comma: a slash anywhere
      before some later comma makes the URI acceptable, whatever precedes
      the first comma, and the media type is still read from that part. */
  lemma SlashAfterFirstComma(info: string, middle: string, payload: string)
    requires ',' !in info && '/' in middle
    requires NoNewline(info) && NoNewline(middle) && NoNewline(payload)
    ensures var s := "data:" + info + "," + middle + "," + payload;
            ParseDataUri(s).Ok? && ParseDataUri(s).value.info == info &&
            ParseDataUri(s).value.payload == middle + "," + payload
  {
    var s := "data:" + info + "," + middle + "," + payload;
    var i := 5 + |info| + 1 + |middle|;
    assert s[i] == ',';
    assert s[5..i] == info + "," + middle;
    assert '/' in s[5..i] by {
      var m :| 0 <= m < |middle| && middle[m] == '/';
      assert s[5..i][|info| + 1 + m] == '/';
    }
    assert NoNewline(s) by {
      assert s == "data:" + info + "," + middle + "," + payload;
    }
    assert MatchesPattern(s);
    assert s == "data:" + info + "," + (middle + "," + payload);
    PayloadKeepsCommas(info, middle + "," + payload);
  }

  /** The media type is the text up to the first `;` (or the end), and
      `text/plain` when that text is empty. */
  lemma MediaTypeIsFirstSegment(s: string)
    ensures ParseDataUri(s).Ok? ==> var d := ParseDataUri(s).value;
            (d.info == "" || d.info[0] == ';') ==> d.mime == "text/plain"
    ensures ParseDataUri(s).Ok? ==> var d := ParseDataUri(s).value;
            d.info != "" && d.info[0] != ';' ==>
              |d.mime| <= |d.info| && d.mime == d.info[..|d.mime|] && ';' !in d.mime &&
              (|d.mime| == |d.info| || d.info[|d.mime|] == ';')
  {
  }

  /** A URI with no slash anywhere is accepted only in the two forms
      `data:,` and `data:;base64,`. */
  lemma WithoutSlash(s: string)
    requires '/' !in s
    ensures ParseDataUri(s).Ok? <==>
              NoNewline(s) && |s| >= 6 &&
              (s[..6] == "data:," || (|s| >= 13 && s[..13] == "data:;base64,"))
  {
    DataUriMatcherCorrect(s);
    assert |s| >= 5 ==> !CommaAfterSlash(s[5..]);
    if |s| >= 6 {
      assert s[..6] == "data:," <==> s[..5] == "data:" && s[5] == ',' by {
        assert s[..6] == s[..5] + [s[5]];
        assert "data:," == "data:" + [','];
      }
    }
    if |s| >= 13 {
      assert s[..13] == "data:;base64," <==>
               s[..5] == "data:" && s[5..12] == ";base64" && s[12] == ',' by {
        assert s[..13] == s[..5] + s[5..12] + [s[12]];
        assert "data:;base64," == "data:" + ";base64" + [','];
      }
    }
  }

  /** A newline anywhere rejects the URI. */
  lemma NewlineRejected(s: string)
    requires '\n' in s
    ensures ParseDataUri(s) == Err(ValueError("Invalid data URI `" + s + "`"))
  {
  }
}
