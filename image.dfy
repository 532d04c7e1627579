/** Constructors for image sources (image.go). Reading the file and the
    base64 encoder are outside the model: the outcome of opening and reading
    the file is a parameter, and the encoder is a function parameter. */
module Image {
  import opened Wrappers
  import opened Request

  /** The source-type constant for inline base64 data. Its definition lies
      outside the modelled files, so the model leaves its value open. */
  const SourceTypeBase64: string

  const SourceTypeUrl := "url"

  /** The zero value of the source record, returned together with an error. */
  const EmptySource := ImageSource("", "", "", "")

  /** An inline source: base64 type, the given media type and data, no URL. */
  function LoadBase64(mediaType: string, data: string): (s: ImageSource)
    ensures s.kind == SourceTypeBase64 && s.mediaType == mediaType && s.data == data && s.url == ""
  {
    ImageSource(SourceTypeBase64, mediaType, data, "")
  }

  /** A remote source: type "url", the given URL, no media type and no data. */
  function LoadUrl(url: string): (s: ImageSource)
    ensures s.kind == SourceTypeUrl && s.url == url && s.mediaType == "" && s.data == ""
  {
    ImageSource(SourceTypeUrl, "", "", url)
  }

  /** A path element free of '.' and '/'. */
  predicate PlainName(s: string) {
    forall i :: 0 <= i < |s| ==> s[i] != '.' && s[i] != '/'
  }

  /** `filepath.Ext` with '/' as the separator: scanning back from the end
      of the last path element, the suffix starting at the first '.' met,
      or "" when the scan reaches a '/' or the start first. */
  function Ext(path: string): string
  {
    if path == [] then ""
    else
      var c := path[|path| - 1];
      if c == '/' then ""
      else if c == '.' then [c]
      else
        var e := Ext(path[..|path| - 1]);
        if e == "" then "" else e + [c]
  }

  /** What `Ext` returns: a suffix of the path that starts with its only
      '.' and holds no '/', and "" only when no '.' follows the last '/'. */
  lemma {:induction false} ExtIsLastDotSuffix(path: string)
    ensures var e := Ext(path);
      && |e| <= |path| && e == path[|path| - |e|..]
      && (e != "" ==> e[0] == '.' && PlainName(e[1..]))
      && (e == "" ==> forall j :: 0 <= j < |path| && path[j] == '.' ==>
            exists k :: j < k < |path| && path[k] == '/')
  {
    if path != [] {
      var q, c := path[..|path| - 1], path[|path| - 1];
      assert path == q + [c];
      if c != '/' && c != '.' {
        ExtIsLastDotSuffix(q);
        var e := Ext(q);
        if e != "" {
          assert (e + [c])[1..] == e[1..] + [c];
        } else {
          forall j | 0 <= j < |path| && path[j] == '.'
            ensures exists k :: j < k < |path| && path[k] == '/'
          {
            assert j < |q| && q[j] == '.';
            var k :| j < k < |q| && q[k] == '/';
            assert path[k] == '/';
          }
        }
      }
    }
  }

  /** The media type deduced from an extension. The comparison is exact, so
      an upper-case extension is not recognised. */
  function MediaTypeOf(ext: string): (mt: string)
    ensures mt == "image/jpeg" <==> ext == ".jpg" || ext == ".jpeg"
    ensures mt == "image/png" <==> ext == ".png"
    ensures mt == "image/gif" <==> ext == ".gif"
    ensures mt == "image/webp" <==> ext == ".webp"
    ensures mt == "" <==> ext !in {".jpg", ".jpeg", ".png", ".gif", ".webp"}
  {
    if ext == ".jpg" || ext == ".jpeg" then "image/jpeg"
    else if ext == ".png" then "image/png"
    else if ext == ".gif" then "image/gif"
    else if ext == ".webp" then "image/webp"
    else ""
  }

  /** What the file system gives back for a path: `os.Open` failed,
      `Stat` failed, or the buffer of `Size()` bytes after `Read`. */
  datatype FileRead = OpenFailed(openError: string) | StatFailed(statError: string) | Read(bytes: seq<bv8>)

  /** A source together with the error Go returns beside it. */
  datatype Loaded = Loaded(source: ImageSource, error: Option<string>)

  /** `TypeImageSourceLoadFile`: on failure the empty source and the error;
      otherwise a base64 source holding the encoded bytes, its media type
      deduced from the path's extension, and no error, whatever the extension. */
  function LoadFile(path: string, file: FileRead, encode: seq<bv8> -> string): (r: Loaded)
    ensures file.OpenFailed? ==> r == Loaded(EmptySource, Some(file.openError))
    ensures file.StatFailed? ==> r == Loaded(EmptySource, Some(file.statError))
    ensures file.Read? ==> r.error.None? && r.source.kind == SourceTypeBase64
    ensures file.Read? ==> r.source.data == encode(file.bytes) && r.source.url == ""
    ensures file.Read? ==> r.source.mediaType == MediaTypeOf(Ext(path))
  {
    match file
    case OpenFailed(err) => Loaded(EmptySource, Some(err))
    case StatFailed(err) => Loaded(EmptySource, Some(err))
    case Read(bytes) => Loaded(LoadBase64(MediaTypeOf(Ext(path)), encode(bytes)), None)
  }

  /** Appending plain characters to a path extends a found extension and
      keeps a missing one missing. */
  lemma {:induction false} ExtAppendPlain(p: string, s: string)
    requires PlainName(s)
    ensures Ext(p + s) == if Ext(p) == "" then "" else Ext(p) + s
  {
    if s == [] {
      assert p + s == p;
    } else {
      var s', c := s[..|s| - 1], s[|s| - 1];
      assert PlainName(s') by {
        forall i | 0 <= i < |s'| ensures s'[i] != '.' && s'[i] != '/' {
          assert s'[i] == s[i];
        }
      }
      ExtAppendPlain(p, s');
      assert s == s' + [c];
      assert p + s == (p + s') + [c];
      ExtStep(p + s', c);
      if Ext(p) != "" {
        assert Ext(p) + s' + [c] == Ext(p) + s;
      }
    }
  }

  /** One unfolding of `Ext` for a last character that is neither '.' nor '/'. */
  lemma ExtStep(q: string, c: char)
    requires c != '.' && c != '/'
    ensures Ext(q + [c]) == if Ext(q) == "" then "" else Ext(q) + [c]
  {
    var path := q + [c];
    assert path[|path| - 1] == c;
    assert path[..|path| - 1] == q;
  }

  /** Whatever precedes the last '.' of the last element does not matter. */
  lemma ExtOfNameWithDot(p: string, s: string)
    requires PlainName(s)
    ensures Ext(p + "." + s) == "." + s
  {
    var q := p + ".";
    assert q[..|q| - 1] == p;
    ExtAppendPlain(q, s);
  }

  /** A last element without a '.' has no extension, even when a directory
      name contains one. */
  lemma ExtOfPlainLastElement(p: string, s: string)
    requires PlainName(s)
    ensures Ext(p + "/" + s) == ""
  {
    ExtAppendPlain(p + "/", s);
  }

  lemma ExtOfDoubleExtension()
    ensures Ext("a.tar.png") == ".png"
  {
    ExtOfNameWithDot("a.tar", "png");
    assert "a.tar" + "." + "png" == "a.tar.png";
  }

  /** A file read from "photo.png" is declared as image/png. */
  lemma PngFileIsImagePng(bytes: seq<bv8>, encode: seq<bv8> -> string)
    ensures LoadFile("photo.png", Read(bytes), encode).source.mediaType == "image/png"
  {
    ExtOfNameWithDot("photo", "png");
    assert "photo" + "." + "png" == "photo.png";
  }

  /** An upper-case or missing extension gives an empty media type and
      still no error. */
  lemma UnknownExtensionIsSoft(bytes: seq<bv8>, encode: seq<bv8> -> string)
    ensures LoadFile("photo.PNG", Read(bytes), encode) == Loaded(LoadBase64("", encode(bytes)), None)
    ensures LoadFile("dir.d/photo", Read(bytes), encode) == Loaded(LoadBase64("", encode(bytes)), None)
  {
    ExtOfNameWithDot("photo", "PNG");
    assert "photo" + "." + "PNG" == "photo.PNG";
    ExtOfPlainLastElement("dir.d", "photo");
    assert "dir.d" + "/" + "photo" == "dir.d/photo";
  }
}
