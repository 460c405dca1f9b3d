/**
 * The names under which downloaded images are stored: the query slug, short digest and
 * extension of the search crawlers, and the photographer-based names of the Pexels crawler.
 */
module Filenames {
  import opened Wrappers
  import opened Text
  import opened ContentTypes

  /** A character the sanitisers keep: alphanumerics, space, `-`, `_` and, when `dots` holds, `.`. */
  predicate Kept(c: char, dots: bool) {
    IsAlnum(c) || c == ' ' || c == '-' || c == '_' || (dots && c == '.')
  }

  /** `"".join(c for c in s if <kept>)` */
  function KeepChars(s: string, dots: bool): (r: string)
    ensures |r| <= |s|
    ensures forall i :: 0 <= i < |r| ==> Kept(r[i], dots)
    decreases |s|
  {
    if s == [] then []
    else (if Kept(s[0], dots) then [s[0]] else []) + KeepChars(s[1..], dots)
  }

  /** A name made only of alphanumerics, `-`, `_` and `.`. */
  predicate SafeName(s: string) {
    forall i :: 0 <= i < |s| ==> IsAlnum(s[i]) || s[i] == '-' || s[i] == '_' || s[i] == '.'
  }

  /** `_sanitize_filename`: drop every other character, then turn spaces into `_`. */
  function Sanitize(name: string): (r: string)
    ensures SafeName(r)
    ensures |r| <= |name|
  {
    ReplaceChar(KeepChars(name, true), ' ', '_')
  }

  /** A string made only of kept characters passes the filter unchanged. */
  lemma {:induction false} KeepCharsIdentity(s: string, dots: bool)
    requires forall i :: 0 <= i < |s| ==> Kept(s[i], dots)
    ensures KeepChars(s, dots) == s
    decreases |s|
  {
    if s != [] {
      KeepCharsIdentity(s[1..], dots);
      assert [s[0]] + s[1..] == s;
    }
  }

  /** A name that is already safe is its own sanitised form. */
  lemma SanitizeSafeIdentity(name: string)
    requires SafeName(name)
    ensures Sanitize(name) == name
  {
    KeepCharsIdentity(name, true);
  }

  /** Sanitising is idempotent. */
  lemma SanitizeIdempotent(name: string)
    ensures Sanitize(Sanitize(name)) == Sanitize(name)
  {
    SanitizeSafeIdentity(Sanitize(name));
  }

  /** The query part of a search crawler's filename: never empty and always safe. */
  function QuerySlug(query: string): (r: string)
    ensures r != [] && SafeName(r)
    ensures r == "query" || r == Sanitize(ReplaceChar(Strip(query), ' ', '_'))
  {
    var slug := Sanitize(ReplaceChar(Strip(query), ' ', '_'));
    if slug == "" then "query" else slug
  }

  /** The first twelve characters of the digest (`hexdigest()[:12]`). */
  function ShortDigest(digest: string): (r: string)
    ensures |r| <= 12 && |r| <= |digest| && r == digest[..|r|]
  {
    PySliceTo(digest, 12)
  }

  /** The extension a filename gets: the inferred one, or `jpg`. */
  function FileExtension(contentType: Option<string>, table: seq<(string, string)>): (r: string)
    ensures InferExtension(contentType, table).None? ==> r == "jpg"
    ensures InferExtension(contentType, table).Some? ==> r == InferExtension(contentType, table).value
  {
    InferExtension(contentType, table).GetOr("jpg")
  }

  /**
   * `_generate_filename`: `<slug>_<digest[:12]>.<ext>`; the digest is the SHA-1 of a
   * nanosecond clock reading, taken here as a parameter.
   */
  function GenerateFilename(query: string, contentType: Option<string>, digest: string,
                            table: seq<(string, string)>): string
  {
    QuerySlug(query) + "_" + ShortDigest(digest) + "." + FileExtension(contentType, table)
  }

  /** The text after the last `.` of a name (all of it when there is no `.`). */
  function AfterLastDot(s: string): (r: string)
    ensures '.' !in r
    decreases |s|
  {
    if s == [] then []
    else if s[|s| - 1] == '.' then []
    else AfterLastDot(s[..|s| - 1]) + [s[|s| - 1]]
  }

  lemma {:induction false} AfterLastDotOf(p: string, e: string)
    requires '.' !in e
    ensures AfterLastDot(p + "." + e) == e
    decreases |e|
  {
    var s := p + "." + e;
    if e == [] {
      assert s[|s| - 1] == '.';
    } else {
      var e' := e[..|e| - 1];
      assert s[..|s| - 1] == p + "." + e';
      assert '.' !in e' by {
        forall i | 0 <= i < |e'| ensures e'[i] != '.' { assert e'[i] == e[i]; }
      }
      AfterLastDotOf(p, e');
      assert e' + [e[|e| - 1]] == e;
    }
  }

  /** Every extension is free of dots and made of letters. */
  lemma ExtensionsHaveNoDot(e: string)
    requires e in Extensions
    ensures '.' !in e
    ensures SafeName(e)
  {
  }

  /** Concatenations of safe names are safe. */
  lemma SafeConcat(a: string, b: string)
    requires SafeName(a) && SafeName(b)
    ensures SafeName(a + b)
  {
    forall i | 0 <= i < |a + b|
      ensures IsAlnum((a + b)[i]) || (a + b)[i] == '-' || (a + b)[i] == '_' || (a + b)[i] == '.'
    {
      if i < |a| { assert (a + b)[i] == a[i]; } else { assert (a + b)[i] == b[i - |a|]; }
    }
  }

  /**
   * A search crawler's filename always ends in `.` and a known extension, and that extension
   * is what a file system reads back as the suffix after the last dot.
   */
  lemma GenerateFilenameExtension(query: string, contentType: Option<string>, digest: string,
                                  table: seq<(string, string)>)
    requires table == WorkerTable || table == SearchTable
    ensures FileExtension(contentType, table) in Extensions
    ensures AfterLastDot(GenerateFilename(query, contentType, digest, table)) == FileExtension(contentType, table)
  {
    InferExtensionRange(contentType);
    var ext := FileExtension(contentType, table);
    ExtensionsHaveNoDot(ext);
    AfterLastDotOf(QuerySlug(query) + "_" + ShortDigest(digest), ext);
  }

  /** The whole filename is safe when the digest is (a hexadecimal digest is). */
  lemma GenerateFilenameSafe(query: string, contentType: Option<string>, digest: string,
                             table: seq<(string, string)>)
    requires table == WorkerTable || table == SearchTable
    requires SafeName(digest)
    ensures SafeName(GenerateFilename(query, contentType, digest, table))
  {
    InferExtensionRange(contentType);
    var d := ShortDigest(digest);
    assert SafeName(d) by {
      forall i | 0 <= i < |d| ensures IsAlnum(d[i]) || d[i] == '-' || d[i] == '_' || d[i] == '.' {
        assert d[i] == digest[i];
      }
    }
    var ext := FileExtension(contentType, table);
    ExtensionsHaveNoDot(ext);
    var slug := QuerySlug(query);
    SafeConcat(slug, "_");
    SafeConcat(slug + "_", d);
    SafeConcat(slug + "_" + d, ".");
    SafeConcat(slug + "_" + d + ".", ext);
    assert GenerateFilename(query, contentType, digest, table) == slug + "_" + d + "." + ext;
  }

  /** An `image/avif` candidate of the Bing or Google crawler is stored with a `.jpg` name. */
  lemma AvifStoredAsJpg(query: string, contentType: string, digest: string)
    requires Lower(contentType) == "image/avif"
    ensures FileExtension(Some(contentType), SearchTable) == "jpg"
    ensures FileExtension(Some(contentType), WorkerTable) == "avif"
  {
    AvifOnlyInWorkerTable(contentType);
  }

  /**
   * The photographer part of a Pexels filename: alphanumerics, space, `-` and `_` kept,
   * trailing whitespace stripped, spaces turned into `_`.
   */
  function PhotographerSlug(photographer: string): (r: string)
    ensures |r| <= |photographer|
    ensures forall i :: 0 <= i < |r| ==> IsAlnum(r[i]) || r[i] == '-' || r[i] == '_'
  {
    var kept := KeepChars(photographer, false);
    var trimmed := TrimEnd(kept);
    assert forall i :: 0 <= i < |trimmed| ==> Kept(trimmed[i], false) by {
      forall i | 0 <= i < |trimmed| ensures Kept(trimmed[i], false) { assert trimmed[i] == kept[i]; }
    }
    ReplaceChar(trimmed, ' ', '_')
  }

  /**
   * A photographer name made of kept characters and not ending in a space loses nothing:
   * its slug is the name with spaces turned into `_`.
   */
  lemma PhotographerSlugKeepsCleanNames(photographer: string)
    requires forall i :: 0 <= i < |photographer| ==> Kept(photographer[i], false)
    requires photographer == [] || photographer[|photographer| - 1] != ' '
    ensures PhotographerSlug(photographer) == ReplaceChar(photographer, ' ', '_')
  {
    KeepCharsIdentity(photographer, false);
    if photographer != [] {
      assert !IsSpace(photographer[|photographer| - 1]);
    }
  }

  /** `car_crawler._generate_filename`: `<photographer>_<id>_<timestamp>.jpg`. */
  function CarFilename(photographer: string, photoId: string, timestamp: string): string {
    PhotographerSlug(photographer) + "_" + photoId + "_" + timestamp + ".jpg"
  }

  /** A Pexels filename is always read back as a `jpg` file. */
  lemma CarFilenameIsJpg(photographer: string, photoId: string, timestamp: string)
    ensures AfterLastDot(CarFilename(photographer, photoId, timestamp)) == "jpg"
  {
    var p := PhotographerSlug(photographer) + "_" + photoId + "_" + timestamp;
    assert CarFilename(photographer, photoId, timestamp) == p + "." + "jpg";
    AfterLastDotOf(p, "jpg");
  }
}
