/** `BigQuery.detect_file_format`: the load or extract format, field delimiter
    and compression a file or `gs://` name implies. Each `re.search(r'.+\.ext$',
    name, re.I)` of the source is the predicate `HasSuffix` below: an ASCII
    case-insensitive suffix preceded by at least one character other than a
    newline, where `$` may also match just before a final newline. */
module FileFormats {
  import opened Wrappers
  import opened Text

  datatype FileFormat = FileFormat(sourceFormat: Option<string>, fieldDelimiter: Option<string>, compression: string)

  /** The `|ext|` characters before position `k` of `s` fold, in ASCII case,
      to the lower-case literal `ext`. */
  predicate FoldsTo(s: string, k: nat, ext: string)
    requires k <= |s|
    decreases |ext|
  {
    |ext| == 0 || (0 < k && LowerChar(s[k - 1]) == ext[|ext| - 1] && FoldsTo(s, k - 1, ext[..|ext| - 1]))
  }

  /** `.+` followed by `ext`, the match ending at `k`. */
  predicate MatchesBefore(s: string, ext: string, k: nat)
    requires k <= |s|
  {
    |ext| < k && FoldsTo(s, k, ext) && s[k - |ext| - 1] != '\n'
  }

  /** `re.search(r'.+' + ext + '$', s, re.I)`. */
  predicate HasSuffix(s: string, ext: string) {
    MatchesBefore(s, ext, |s|) || (0 < |s| && s[|s| - 1] == '\n' && MatchesBefore(s, ext, |s| - 1))
  }

  /** `ext(?:\.gz)?` at the end. */
  predicate HasFormatSuffix(s: string, ext: string) {
    HasSuffix(s, ext) || HasSuffix(s, ext + ".gz")
  }

  /** The detection as a value: first matching extension wins. */
  function Detect(name: string): FileFormat
  {
    var compression := if HasSuffix(name, ".gz") then "GZIP" else "NONE";
    if HasFormatSuffix(name, ".csv") then FileFormat(Some("CSV"), Some(","), compression)
    else if HasFormatSuffix(name, ".tsv") then FileFormat(Some("CSV"), Some("\t"), compression)
    else if HasFormatSuffix(name, ".json") then FileFormat(Some("NEWLINE_DELIMITED_JSON"), None, compression)
    else if HasFormatSuffix(name, ".avro") then FileFormat(Some("AVRO"), None, "NONE")
    else FileFormat(None, None, compression)
  }

  /** `detect_file_format`, which reassigns its three locals step by step. */
  method DetectFileFormat(filename: string) returns (fileFormat: Option<string>, fieldDelimiter: Option<string>, compression: string)
    ensures FileFormat(fileFormat, fieldDelimiter, compression) == Detect(filename)
  {
    fileFormat := None;
    fieldDelimiter := None;
    compression := "NONE";
    if HasSuffix(filename, ".gz") {
      compression := "GZIP";
    }
    if HasFormatSuffix(filename, ".csv") {
      fileFormat := Some("CSV");
      fieldDelimiter := Some(",");
    } else if HasFormatSuffix(filename, ".tsv") {
      fileFormat := Some("CSV");
      fieldDelimiter := Some("\t");
    } else if HasFormatSuffix(filename, ".json") {
      fileFormat := Some("NEWLINE_DELIMITED_JSON");
    } else if HasFormatSuffix(filename, ".avro") {
      fileFormat := Some("AVRO");
      compression := "NONE";
    }
  }

  /** Compression is GZIP exactly when the name ends in `.gz` and is not AVRO;
      a name with no recognised extension has no format and no delimiter. */
  lemma CompressionRule(name: string)
    ensures Detect(name).compression == "GZIP" || Detect(name).compression == "NONE"
    ensures Detect(name).compression == "GZIP" <==> HasSuffix(name, ".gz") && Detect(name).sourceFormat != Some("AVRO")
    ensures Detect(name).sourceFormat.None? ==> Detect(name).fieldDelimiter.None?
  {
  }

  /** A fold reads the character `j` places before position `k`. */
  lemma {:induction false} FoldsToChar(s: string, k: nat, ext: string, j: nat)
    requires k <= |s| && FoldsTo(s, k, ext) && j < |ext|
    ensures j < k && LowerChar(s[k - 1 - j]) == ext[|ext| - 1 - j]
    decreases |ext|
  {
    if j > 0 {
      FoldsToChar(s, k - 1, ext[..|ext| - 1], j - 1);
    }
  }

  /** The `n` characters before `k` fold to their own lower-case form. */
  lemma {:induction false} FoldsToLower(s: string, k: nat, n: nat)
    requires n <= k <= |s|
    ensures FoldsTo(s, k, Lower(s[k - n..k]))
    decreases n
  {
    if n > 0 {
      FoldsToLower(s, k - 1, n - 1);
      assert Lower(s[k - n..k])[..n - 1] == Lower(s[k - n..k - 1]);
    }
  }

  /** A name made of at least one character, the last not a newline. */
  predicate ProperBase(base: string) {
    |base| > 0 && base[|base| - 1] != '\n'
  }

  /** The extension that starts after a character other than a newline matches. */
  lemma ExtensionMatches(base: string, ext: string)
    requires ProperBase(base) && |ext| > 0
    ensures HasSuffix(base + ext, Lower(ext))
  {
    var s := base + ext;
    assert s[|s| - |ext|..|s|] == ext;
    FoldsToLower(s, |s|, |ext|);
  }

  /** `pat` cannot match at the end of `base + ext` when the two differ
      `j` characters from the end. */
  lemma Mismatch(base: string, ext: string, pat: string, j: nat)
    requires ProperBase(base) && 0 < |ext| && Lower(ext)[|ext| - 1] != '\n'
    requires j < |pat| && j < |ext| && Lower(ext)[|ext| - 1 - j] != pat[|pat| - 1 - j]
    ensures !HasSuffix(base + ext, pat)
  {
    var s := base + ext;
    assert s[|s| - 1] == ext[|ext| - 1];
    assert s[|s| - 1 - j] == ext[|ext| - 1 - j];
    if MatchesBefore(s, pat, |s|) {
      FoldsToChar(s, |s|, pat, j);
    }
  }

  /** An extension ending in `.gz` (in any case) makes the name compressed. */
  lemma GzipSuffix(base: string, ext: string)
    requires ProperBase(base) && |ext| >= 4 && Lower(ext)[|ext| - 3..] == ".gz" && Lower(ext)[|ext| - 4] != '\n'
    ensures HasSuffix(base + ext, ".gz")
  {
    var s := base + ext;
    assert s[|s| - 3..|s|] == ext[|ext| - 3..];
    assert Lower(ext[|ext| - 3..]) == Lower(ext)[|ext| - 3..];
    FoldsToLower(s, |s|, 3);
    assert s[|s| - 4] == ext[|ext| - 4];
  }

  lemma CompressedNames()
    ensures ".csv" + ".gz" == ".csv.gz" && ".tsv" + ".gz" == ".tsv.gz"
    ensures ".json" + ".gz" == ".json.gz" && ".avro" + ".gz" == ".avro.gz"
  {
  }

  /** `.csv` and `.csv.gz`, in any letter case. */
  lemma CsvSuffix(base: string, ext: string)
    requires ProperBase(base) && (Lower(ext) == ".csv" || Lower(ext) == ".csv.gz")
    ensures Detect(base + ext) == FileFormat(Some("CSV"), Some(","), if Lower(ext) == ".csv.gz" then "GZIP" else "NONE")
  {
    CompressedNames();
    ExtensionMatches(base, ext);
    if Lower(ext) == ".csv" {
      Mismatch(base, ext, ".gz", 0);
    } else {
      GzipSuffix(base, ext);
    }
  }

  /** `.tsv` and `.tsv.gz`. */
  lemma TsvSuffix(base: string, ext: string)
    requires ProperBase(base) && (Lower(ext) == ".tsv" || Lower(ext) == ".tsv.gz")
    ensures Detect(base + ext) == FileFormat(Some("CSV"), Some("\t"), if Lower(ext) == ".tsv.gz" then "GZIP" else "NONE")
  {
    CompressedNames();
    ExtensionMatches(base, ext);
    if Lower(ext) == ".tsv" {
      Mismatch(base, ext, ".gz", 0);
      Mismatch(base, ext, ".csv", 2);
      Mismatch(base, ext, ".csv.gz", 0);
    } else {
      GzipSuffix(base, ext);
      Mismatch(base, ext, ".csv", 0);
      Mismatch(base, ext, ".csv.gz", 5);
    }
  }

  /** `.json` and `.json.gz`. */
  lemma JsonSuffix(base: string, ext: string)
    requires ProperBase(base) && (Lower(ext) == ".json" || Lower(ext) == ".json.gz")
    ensures Detect(base + ext) == FileFormat(Some("NEWLINE_DELIMITED_JSON"), None, if Lower(ext) == ".json.gz" then "GZIP" else "NONE")
  {
    CompressedNames();
    ExtensionMatches(base, ext);
    if Lower(ext) == ".json" {
      Mismatch(base, ext, ".gz", 0);
      Mismatch(base, ext, ".csv", 0);
      Mismatch(base, ext, ".csv.gz", 0);
      Mismatch(base, ext, ".tsv", 0);
      Mismatch(base, ext, ".tsv.gz", 0);
    } else {
      GzipSuffix(base, ext);
      Mismatch(base, ext, ".csv", 0);
      Mismatch(base, ext, ".csv.gz", 3);
      Mismatch(base, ext, ".tsv", 0);
      Mismatch(base, ext, ".tsv.gz", 3);
    }
  }

  /** `.avro` and `.avro.gz`, never compressed. */
  lemma AvroSuffix(base: string, ext: string)
    requires ProperBase(base) && (Lower(ext) == ".avro" || Lower(ext) == ".avro.gz")
    ensures Detect(base + ext) == FileFormat(Some("AVRO"), None, "NONE")
  {
    CompressedNames();
    ExtensionMatches(base, ext);
    if Lower(ext) == ".avro" {
      Mismatch(base, ext, ".csv", 0);
      Mismatch(base, ext, ".csv.gz", 0);
      Mismatch(base, ext, ".tsv", 0);
      Mismatch(base, ext, ".tsv.gz", 0);
      Mismatch(base, ext, ".json", 0);
      Mismatch(base, ext, ".json.gz", 0);
    } else {
      Mismatch(base, ext, ".csv", 0);
      Mismatch(base, ext, ".csv.gz", 3);
      Mismatch(base, ext, ".tsv", 0);
      Mismatch(base, ext, ".tsv.gz", 3);
      Mismatch(base, ext, ".json", 0);
      Mismatch(base, ext, ".json.gz", 3);
    }
  }

  lemma LowerIs(x: string, y: string)
    requires |x| == |y| && forall i :: 0 <= i < |x| ==> LowerChar(x[i]) == y[i]
    ensures Lower(x) == y
  {
  }

  /** The cases the source's own checks exercise, uncompressed ... */
  lemma DetectTestCases()
    ensures Detect("filename-*.csv") == FileFormat(Some("CSV"), Some(","), "NONE")
    ensures Detect("filename-*.tsv") == FileFormat(Some("CSV"), Some("\t"), "NONE")
    ensures Detect("filename-*.json") == FileFormat(Some("NEWLINE_DELIMITED_JSON"), None, "NONE")
  {
    var base := "filename-*";
    assert base + ".csv" == "filename-*.csv" && base + ".tsv" == "filename-*.tsv" && base + ".json" == "filename-*.json";
    LowerIs(".csv", ".csv");
    LowerIs(".tsv", ".tsv");
    LowerIs(".json", ".json");
    CsvSuffix(base, ".csv");
    TsvSuffix(base, ".tsv");
    JsonSuffix(base, ".json");
  }

  /** ... and compressed. */
  lemma DetectGzipTestCases()
    ensures Detect("filename-*.csv.gz") == FileFormat(Some("CSV"), Some(","), "GZIP")
    ensures Detect("filename-*.tsv.gz") == FileFormat(Some("CSV"), Some("\t"), "GZIP")
    ensures Detect("filename-*.json.gz") == FileFormat(Some("NEWLINE_DELIMITED_JSON"), None, "GZIP")
  {
    var base := "filename-*";
    assert base + ".csv.gz" == "filename-*.csv.gz" && base + ".tsv.gz" == "filename-*.tsv.gz";
    assert base + ".json.gz" == "filename-*.json.gz";
    LowerIs(".csv.gz", ".csv.gz");
    LowerIs(".tsv.gz", ".tsv.gz");
    LowerIs(".json.gz", ".json.gz");
    CsvSuffix(base, ".csv.gz");
    TsvSuffix(base, ".tsv.gz");
    JsonSuffix(base, ".json.gz");
  }

  /** An unknown extension keeps GZIP but has no format. */
  lemma UnknownExtensionKeepsGzip()
    ensures Detect("x.txt.gz") == FileFormat(None, None, "GZIP")
  {
    var base, ext := "x.t", "xt.gz";
    assert base + ext == "x.txt.gz";
    LowerIs(ext, ext);
    assert Lower(ext)[2..] == ".gz";
    GzipSuffix(base, ext);
    CompressedNames();
    Mismatch(base, ext, ".csv", 0);
    Mismatch(base, ext, ".csv.gz", 3);
    Mismatch(base, ext, ".tsv", 0);
    Mismatch(base, ext, ".tsv.gz", 3);
    Mismatch(base, ext, ".json", 0);
    Mismatch(base, ext, ".json.gz", 3);
    Mismatch(base, ext, ".avro", 0);
    Mismatch(base, ext, ".avro.gz", 3);
  }

  /** The extension alone is not a match: `.+` needs a character before it. */
  lemma BareExtensionIsUnknown()
    ensures Detect(".csv") == FileFormat(None, None, "NONE")
  {
  }

  /** `$` also matches just before a final newline. */
  lemma FinalNewlineIsIgnored()
    ensures Detect("DATA.CSV\n") == FileFormat(Some("CSV"), Some(","), "NONE")
  {
    var s := "DATA.CSV\n";
    LowerIs(s[4..8], ".csv");
    FoldsToLower(s, 8, 4);
    assert MatchesBefore(s, ".csv", 8);
    assert LowerChar(s[8]) != 'z' && LowerChar(s[7]) != 'z';
    assert !HasSuffix(s, ".gz");
  }
}
