/**
 * `anni repo print`: resolving a `catalog[/disc_id]` reference, printing an
 * album's title, artist or date or one disc as a CUE sheet, choosing the
 * album to export as TOML or JSON (by album id or by catalog), and building
 * the tree of a tag's child tags and tagged albums.
 */
module RepoPrint {
  import opened Wrappers
  import opened Text
  import opened AlbumDoc

  /** What the command prints. */
  datatype PrintType = Title | Artist | Date | Cue | Toml | Json | TagTree

  /**
   * How the command fails. `InvalidDiscId` and `AlbumNotFound` are panics in
   * the program (`expect`, `unwrap`, indexing an empty vector), and so is
   * `MissingTagEntry` (an `unwrap` on a child tag or a tagged album the
   * manager does not have); `DiscNotFound` and `TagNotFound` are reported
   * errors.
   */
  datatype PrintError = InvalidDiscId | AlbumNotFound | DiscNotFound(disc: nat) | TagNotFound | MissingTagEntry

  // ---------------------------------------------------------------------------
  // Album references
  // ---------------------------------------------------------------------------

  /** A parsed reference: the catalog and the 0-based index of the disc. */
  datatype Reference = Reference(catalog: string, discIndex: nat)

  /**
   * Splits the input on `/`: the first piece is the catalog, the second (if
   * any) a `u32` disc id, any further pieces are ignored. A missing id means
   * disc 1; ids 0 and 1 both mean the first disc, id n >= 1 the n-th.
   */
  function ParseReference(input: string): (r: Result<Reference, PrintError>)
    ensures r.Success? ==> '/' !in r.value.catalog && r.value.catalog <= input
    ensures r.Success? ==> r.value.discIndex < U32_MAX
    ensures r.Failure? ==> r.error == InvalidDiscId
  {
    var parts := SplitOn(input, '/');
    if |parts| == 1 then Success(Reference(parts[0], 0))
    else
      var id := ParseU32(parts[1]);
      if id.None? then Failure(InvalidDiscId)
      else Success(Reference(parts[0], if id.value > 0 then id.value - 1 else id.value))
  }

  /** The textual form `catalog/n` of a reference to the n-th disc. */
  function RenderReference(catalog: string, disc: nat): string {
    catalog + "/" + Decimal(disc)
  }

  /** A reference without `/` selects the first disc. */
  lemma BareCatalogSelectsFirstDisc(catalog: string)
    requires '/' !in catalog
    ensures ParseReference(catalog) == Success(Reference(catalog, 0))
  {
  }

  /**
   * After `catalog/` only the text up to the next `/` matters: it is parsed as
   * a `u32` and normalised, or the reference is invalid.
   */
  lemma DiscIdField(catalog: string, rest: string)
    requires '/' !in catalog
    ensures var id := ParseU32(SplitOn(rest, '/')[0]);
            ParseReference(catalog + "/" + rest) ==
              if id.None? then Failure(InvalidDiscId)
              else Success(Reference(catalog, if id.value > 0 then id.value - 1 else 0))
  {
    var input := catalog + "/" + rest;
    SplitOnCons(catalog, '/', rest);
    assert catalog + ['/'] + rest == input;
    var parts := SplitOn(input, '/');
    assert |parts| >= 2 && parts[0] == catalog && parts[1] == SplitOn(rest, '/')[0];
    var id := ParseU32(parts[1]);
    if id.None? {
      assert ParseReference(input) == Failure(InvalidDiscId);
    } else {
      var r := ParseReference(input);
      assert r == Success(Reference(parts[0], if id.value > 0 then id.value - 1 else id.value));
      var n: nat := if id.value > 0 then id.value - 1 else 0;
      assert n == (if id.value > 0 then id.value - 1 else id.value);
      assert r == Success(Reference(catalog, n));
      assert r == Success(Reference(catalog, if id.value > 0 then id.value - 1 else 0));
    }
  }

  /** `catalog/0` and `catalog/1` both select the first disc. */
  lemma DiscZeroAndOneAgree(catalog: string)
    requires '/' !in catalog
    ensures ParseReference(catalog + "/0") == Success(Reference(catalog, 0))
    ensures ParseReference(catalog + "/1") == Success(Reference(catalog, 0))
  {
    DiscIdZero(catalog);
    DiscIdOne(catalog);
  }

  lemma DiscIdZero(catalog: string)
    requires '/' !in catalog
    ensures ParseReference(catalog + "/0") == Success(Reference(catalog, 0))
  {
    SingleDigitId(catalog, 0);
    assert Decimal(0) == "0";
    assert catalog + "/" + Decimal(0) == catalog + "/0";
  }

  lemma DiscIdOne(catalog: string)
    requires '/' !in catalog
    ensures ParseReference(catalog + "/1") == Success(Reference(catalog, 0))
  {
    SingleDigitId(catalog, 1);
    assert Decimal(1) == "1";
    assert catalog + "/" + Decimal(1) == catalog + "/1";
  }

  /** `catalog/n` for a single digit n. */
  lemma SingleDigitId(catalog: string, n: nat)
    requires '/' !in catalog && n < 10
    ensures ParseReference(catalog + "/" + Decimal(n)) == Success(Reference(catalog, if n > 0 then n - 1 else 0))
  {
    ParseU32Decimal(n);
    ValidDiscId(catalog, Decimal(n), n);
  }

  /** Rendering the n-th disc (n >= 1) and parsing it back gives index n-1. */
  lemma RenderParseRoundTrip(catalog: string, disc: nat)
    requires '/' !in catalog && 1 <= disc <= U32_MAX
    ensures ParseReference(RenderReference(catalog, disc)) == Success(Reference(catalog, disc - 1))
  {
    ParseU32Decimal(disc);
    ValidDiscId(catalog, Decimal(disc), disc);
  }

  /** A `/`-free disc id that parses as n selects index n-1, or 0 when n is 0. */
  lemma ValidDiscId(catalog: string, id: string, n: nat)
    requires '/' !in catalog && '/' !in id && ParseU32(id) == Some(n)
    ensures ParseReference(catalog + "/" + id) == Success(Reference(catalog, if n > 0 then n - 1 else 0))
  {
    DiscIdField(catalog, id);
    assert SplitOn(id, '/')[0] == id;
  }

  /** A disc id that is not a `u32` makes the reference invalid. */
  lemma InvalidDiscIdRejected(catalog: string, id: string)
    requires '/' !in catalog && '/' !in id && ParseU32(id) == None
    ensures ParseReference(catalog + "/" + id) == Failure(InvalidDiscId)
  {
    DiscIdField(catalog, id);
  }

  // ---------------------------------------------------------------------------
  // The repository as the printer sees it
  // ---------------------------------------------------------------------------

  /** An album id: 32 hexadecimal digits, each a value below 16. */
  datatype Uuid = Uuid(digits: seq<nat>)

  predicate ValidUuid(u: Uuid) {
    |u.digits| == 32 && forall i :: 0 <= i < 32 ==> u.digits[i] < 16
  }

  /** A tag reference and the stored tag it denotes. */
  datatype TagRef = TagRef(name: string, tagType: string)
  datatype TagInfo = TagInfo(name: string, tagType: string)

  /** A loaded album with the id it is stored under. */
  datatype StoredAlbum = StoredAlbum(id: Uuid, album: Album)

  /**
   * The repository manager's content: the albums in load order, the known
   * tags, each tag's child tags and the ids of the albums each tag marks.
   */
  datatype Repository = Repository(
    albums: seq<StoredAlbum>,
    tags: map<TagRef, TagInfo>,
    childTags: map<TagRef, seq<TagRef>>,
    taggedAlbums: map<TagRef, seq<Uuid>>)

  /** The albums stored under `catalog`, in load order. */
  function LoadAlbums(stored: seq<StoredAlbum>, catalog: string): (r: seq<Album>)
    ensures forall k :: 0 <= k < |r| ==> r[k].catalog == catalog
    ensures forall k :: 0 <= k < |stored| && stored[k].album.catalog == catalog ==> stored[k].album in r
    ensures r != [] ==> exists k :: 0 <= k < |stored| && stored[k].album.catalog == catalog
  {
    if stored == [] then []
    else
      var rest := LoadAlbums(stored[1..], catalog);
      assert forall k :: 1 <= k < |stored| ==> stored[k] == stored[1..][k - 1];
      if stored[0].album.catalog == catalog then [stored[0].album] + rest else rest
  }

  /** The positions, from `from` on, of the albums stored under `catalog`, in increasing order. */
  function MatchingPositions(stored: seq<StoredAlbum>, catalog: string, from: nat): (ps: seq<nat>)
    requires from <= |stored|
    ensures forall k :: 0 <= k < |ps| ==> from <= ps[k] < |stored| && stored[ps[k]].album.catalog == catalog
    ensures forall k, l :: 0 <= k < l < |ps| ==> ps[k] < ps[l]
    ensures forall j :: from <= j < |stored| && stored[j].album.catalog == catalog ==> j in ps
    decreases |stored| - from
  {
    if from == |stored| then []
    else
      var rest := MatchingPositions(stored, catalog, from + 1);
      if stored[from].album.catalog == catalog then [from] + rest else rest
  }

  /**
   * Loading keeps the load order: the k-th album loaded for a catalog is the
   * album at the k-th position holding that catalog, and there are no others.
   */
  lemma LoadAlbumsInOrder(stored: seq<StoredAlbum>, catalog: string)
    ensures |LoadAlbums(stored, catalog)| == |MatchingPositions(stored, catalog, 0)|
    ensures forall k :: 0 <= k < |LoadAlbums(stored, catalog)| ==>
      LoadAlbums(stored, catalog)[k] == stored[MatchingPositions(stored, catalog, 0)[k]].album
  {
    LoadFrom(stored, catalog, 0);
    assert stored[0..] == stored;
  }

  lemma {:induction false} LoadFrom(stored: seq<StoredAlbum>, catalog: string, from: nat)
    requires from <= |stored|
    ensures |LoadAlbums(stored[from..], catalog)| == |MatchingPositions(stored, catalog, from)|
    ensures forall k :: 0 <= k < |LoadAlbums(stored[from..], catalog)| ==>
      LoadAlbums(stored[from..], catalog)[k] == stored[MatchingPositions(stored, catalog, from)[k]].album
    decreases |stored| - from
  {
    if from < |stored| {
      LoadFrom(stored, catalog, from + 1);
      var t := stored[from..];
      assert t[1..] == stored[from + 1..] && t[0] == stored[from];
      var rest := LoadAlbums(stored[from + 1..], catalog);
      var later := MatchingPositions(stored, catalog, from + 1);
      if stored[from].album.catalog == catalog {
        assert LoadAlbums(t, catalog) == [stored[from].album] + rest;
        assert MatchingPositions(stored, catalog, from) == [from] + later;
        forall k | 1 <= k < |rest| + 1
          ensures ([stored[from].album] + rest)[k] == stored[([from] + later)[k]].album
        {
          ConsIndex(stored[from].album, rest, k);
          ConsIndex(from, later, k);
        }
      } else {
        assert LoadAlbums(t, catalog) == rest;
        assert MatchingPositions(stored, catalog, from) == later;
      }
    }
  }

  lemma ConsIndex<T>(head: T, tail: seq<T>, k: nat)
    requires 1 <= k <= |tail|
    ensures ([head] + tail)[k] == tail[k - 1]
  {
  }

  /** The first stored album with the given id. */
  function AlbumById(stored: seq<StoredAlbum>, id: Uuid): (r: Option<Album>)
    ensures r.Some? <==> exists k :: 0 <= k < |stored| && stored[k].id == id
  {
    if stored == [] then None
    else if stored[0].id == id then Some(stored[0].album)
    else
      assert forall k :: 1 <= k < |stored| ==> stored[k] == stored[1..][k - 1];
      AlbumById(stored[1..], id)
  }

  /** The first matching album wins: an album preceded by no other with its id is found. */
  lemma {:induction false} AlbumByIdFirst(stored: seq<StoredAlbum>, k: nat)
    requires k < |stored|
    requires forall j :: 0 <= j < k ==> stored[j].id != stored[k].id
    ensures AlbumById(stored, stored[k].id) == Some(stored[k].album)
  {
    if k > 0 {
      assert forall j :: 0 <= j < k - 1 ==> stored[1..][j] == stored[j + 1];
      AlbumByIdFirst(stored[1..], k - 1);
    }
  }

  // ---------------------------------------------------------------------------
  // Title, artist, date and CUE output
  // ---------------------------------------------------------------------------

  /** `／` (U+FF0F), which stands in for `/` in CUE file names. */
  const FullwidthSolidus: char := '\U{FF0F}'

  /** The header lines: disc title, disc artist and the album's release date. */
  function CueHeaderLines(a: Album, d: Disc): seq<string> {
    ["TITLE " + Quoted(DiscTitle(a, d)), "PERFORMER " + Quoted(DiscArtist(a, d)), "REM DATE " + Quoted(a.releaseDate)]
  }

  /** The optional comment line. */
  function GeneratedByComment(version: string): string {
    "REM COMMENT " + Quoted("Generated by Anni v" + version)
  }

  /** `{:02}. {title}.flac`, with every `/` of the title replaced by `／`. */
  function TrackFileName(number: nat, title: string): (name: string)
    ensures |name| == |Pad2(number)| + 2 + |title| + 5
    ensures '/' !in name
    ensures AllDigits(name[..2]) && (number < 100 ==> DigitsValue(name[..2]) == number)
    ensures name[|Pad2(number)|..|Pad2(number)| + 2] == ". "
    ensures name[|name| - 5..] == ".flac"
  {
    var digits := Pad2(number);
    var safe := ReplaceChar(title, '/', FullwidthSolidus);
    ReplaceCharRemoves(title, '/', FullwidthSolidus);
    assert '/' !in digits;
    var name := digits + ". " + safe + ".flac";
    FourParts(digits, ". ", safe, ".flac");
    assert name[..2] == digits[..2];
    assert number < 100 ==> digits[..2] == digits;
    name
  }

  /**
   * Read back, the file name gives the padded number before `. ` and the
   * title, with each `/` as `／`, before `.flac`.
   */
  lemma TrackFileNameParts(number: nat, title: string)
    ensures var name := TrackFileName(number, title);
      name[..|Pad2(number)|] == Pad2(number)
      && name[|Pad2(number)| + 2..|name| - 5] == ReplaceChar(title, '/', FullwidthSolidus)
  {
    FourParts(Pad2(number), ". ", ReplaceChar(title, '/', FullwidthSolidus), ".flac");
  }

  /** The four parts of a concatenation are its slices at the parts' lengths. */
  lemma FourParts<T>(a: seq<T>, b: seq<T>, c: seq<T>, d: seq<T>)
    ensures (a + b + c + d)[..|a|] == a
    ensures (a + b + c + d)[|a|..|a| + |b|] == b
    ensures (a + b + c + d)[|a| + |b|..|a| + |b| + |c|] == c
    ensures (a + b + c + d)[|a| + |b| + |c|..] == d
  {
  }

  /** The five lines written for the track numbered `number` (1-based). */
  function TrackCueLines(a: Album, d: Disc, number: nat, t: Track): seq<string> {
    [ "FILE " + Quoted(TrackFileName(number, t.title)) + " WAVE",
      "  TRACK 01 AUDIO",
      "    TITLE " + Quoted(t.title),
      "    PERFORMER " + Quoted(TrackArtist(a, d, t)),
      "    INDEX 01 00:00:00" ]
  }

  /** One track's block, as one write: each of its lines preceded by a newline. */
  function CueBlock(a: Album, d: Disc, number: nat, t: Track): string {
    Prefixed(TrackCueLines(a, d, number, t), '\n')
  }

  /** The blocks of the first `n` tracks, in disc order. */
  function CueBlocks(a: Album, d: Disc, n: nat): string
    requires n <= |d.tracks|
  {
    if n == 0 then "" else CueBlocks(a, d, n - 1) + CueBlock(a, d, n, d.tracks[n - 1])
  }

  /**
   * The whole CUE sheet of disc `d` of album `a`: the header lines each ended
   * by a newline, the comment (without a newline) if asked for, the blocks.
   */
  function CueSheet(a: Album, d: Disc, addGeneratedBy: bool, version: string): string {
    Terminated(CueHeaderLines(a, d), '\n') + (if addGeneratedBy then GeneratedByComment(version) else "")
    + CueBlocks(a, d, |d.tracks|)
  }

  /** Writes the CUE sheet piece by piece, one block per track. */
  method RenderCue(a: Album, d: Disc, addGeneratedBy: bool, version: string) returns (dst: string)
    ensures dst == CueSheet(a, d, addGeneratedBy, version)
  {
    var comment := if addGeneratedBy then GeneratedByComment(version) else "";
    dst := Terminated(CueHeaderLines(a, d), '\n') + comment;
    ghost var prefix := dst;
    assert prefix + CueBlocks(a, d, 0) == prefix;
    for i := 0 to |d.tracks|
      invariant dst == prefix + CueBlocks(a, d, i)
    {
      CueBlocksStep(a, d, prefix, i);
      dst := dst + CueBlock(a, d, i + 1, d.tracks[i]);
    }
  }

  /** Writing the next block extends the blocks written so far. */
  lemma CueBlocksStep(a: Album, d: Disc, prefix: string, i: nat)
    requires i < |d.tracks|
    ensures prefix + CueBlocks(a, d, i + 1) == (prefix + CueBlocks(a, d, i)) + CueBlock(a, d, i + 1, d.tracks[i])
  {
  }

  /** The sheet as lines: the header, the comment line (empty if off), five lines per track. */
  function CueLines(a: Album, d: Disc, addGeneratedBy: bool, version: string): seq<string> {
    CueHeaderLines(a, d) + [if addGeneratedBy then GeneratedByComment(version) else ""]
    + TracksCueLines(a, d, |d.tracks|)
  }

  function TracksCueLines(a: Album, d: Disc, n: nat): (ls: seq<string>)
    requires n <= |d.tracks|
    ensures |ls| == 5 * n
  {
    if n == 0 then [] else TracksCueLines(a, d, n - 1) + TrackCueLines(a, d, n, d.tracks[n - 1])
  }

  /** The blocks are the track lines, each preceded by a newline. */
  lemma {:induction false} CueBlocksPrefixed(a: Album, d: Disc, n: nat)
    requires n <= |d.tracks|
    ensures CueBlocks(a, d, n) == Prefixed(TracksCueLines(a, d, n), '\n')
  {
    if n > 0 {
      CueBlocksPrefixed(a, d, n - 1);
      PrefixedAppend(TracksCueLines(a, d, n - 1), TrackCueLines(a, d, n, d.tracks[n - 1]), '\n');
    }
  }

  /** Track k's lines sit at positions 5k..5k+4 of the track part. */
  lemma {:induction false} TracksCueLinesAt(a: Album, d: Disc, n: nat, k: nat)
    requires k < n <= |d.tracks|
    ensures TracksCueLines(a, d, n)[5 * k..5 * k + 5] == TrackCueLines(a, d, k + 1, d.tracks[k])
  {
    var before := TracksCueLines(a, d, n - 1);
    var last := TrackCueLines(a, d, n, d.tracks[n - 1]);
    assert TracksCueLines(a, d, n) == before + last;
    if k < n - 1 {
      TracksCueLinesAt(a, d, n - 1, k);
      BlockInFront(before, last, TrackCueLines(a, d, k + 1, d.tracks[k]), k);
    } else {
      SliceOfBack(before, last);
    }
  }

  lemma BlockInFront(before: seq<string>, last: seq<string>, block: seq<string>, k: nat)
    requires 5 * k + 5 <= |before| && before[5 * k..5 * k + 5] == block
    ensures (before + last)[5 * k..5 * k + 5] == block
  {
    SliceOfFront(before, last, 5 * k, 5 * k + 5);
  }

  lemma SliceOfFront(xs: seq<string>, ys: seq<string>, i: nat, j: nat)
    requires i <= j <= |xs|
    ensures (xs + ys)[i..j] == xs[i..j]
  {
  }

  lemma SliceOfBack(xs: seq<string>, ys: seq<string>)
    ensures (xs + ys)[|xs|..|xs| + |ys|] == ys
  {
  }

  /** The track part of the sheet starts with a newline when there is a track. */
  lemma CueBlocksStartWithNewline(a: Album, d: Disc)
    requires |d.tracks| > 0
    ensures CueBlocks(a, d, |d.tracks|)[0] == '\n'
  {
    CueBlocksPrefixed(a, d, |d.tracks|);
  }

  /** The comment follows the header if and only if it was asked for. */
  lemma GeneratedByIff(a: Album, d: Disc, addGeneratedBy: bool, version: string)
    ensures var header := Terminated(CueHeaderLines(a, d), '\n');
            var sheet := CueSheet(a, d, addGeneratedBy, version);
            header <= sheet && (addGeneratedBy <==> GeneratedByComment(version) <= sheet[|header|..])
  {
    if |d.tracks| > 0 {
      CueBlocksStartWithNewline(a, d);
    }
    OptionalLineIff(Terminated(CueHeaderLines(a, d), '\n'), GeneratedByComment(version),
                    CueBlocks(a, d, |d.tracks|), addGeneratedBy);
  }

  /**
   * A piece that does not start with a newline, optionally put between a
   * prefix and a tail that is empty or starts with one, is there exactly
   * when it was put there.
   */
  lemma OptionalLineIff(header: string, line: string, tail: string, present: bool)
    requires |line| > 0 && line[0] != '\n'
    requires tail == [] || tail[0] == '\n'
    ensures var whole := header + (if present then line else "") + tail;
            header <= whole && (present <==> line <= whole[|header|..])
  {
    var whole := header + (if present then line else "") + tail;
    assert whole[|header|..] == (if present then line else "") + tail;
  }

  predicate NoLineBreaks(ls: seq<string>) {
    forall i :: 0 <= i < |ls| ==> '\n' !in ls[i]
  }

  /** Every value printed into the sheet is free of line breaks. */
  predicate SingleLineValues(a: Album, d: Disc, version: string) {
    '\n' !in DiscTitle(a, d) && '\n' !in DiscArtist(a, d) && '\n' !in a.releaseDate && '\n' !in version
    && forall k :: 0 <= k < |d.tracks| ==> '\n' !in d.tracks[k].title && '\n' !in TrackArtist(a, d, d.tracks[k])
  }

  lemma SingleLineTrack(a: Album, d: Disc, k: nat)
    requires k < |d.tracks| && '\n' !in d.tracks[k].title && '\n' !in TrackArtist(a, d, d.tracks[k])
    ensures NoLineBreaks(TrackCueLines(a, d, k + 1, d.tracks[k]))
  {
    var t := d.tracks[k];
    FileNameSingleLine(k + 1, t.title);
    var file := "FILE " + Quoted(TrackFileName(k + 1, t.title)) + " WAVE";
    var title := "    TITLE " + Quoted(t.title);
    var performer := "    PERFORMER " + Quoted(TrackArtist(a, d, t));
    QuotedSingleLine("FILE ", TrackFileName(k + 1, t.title), " WAVE");
    QuotedSingleLine("    TITLE ", t.title, "");
    QuotedSingleLine("    PERFORMER ", TrackArtist(a, d, t), "");
    assert title == "    TITLE " + Quoted(t.title) + "";
    assert performer == "    PERFORMER " + Quoted(TrackArtist(a, d, t)) + "";
    FiveSingleLines(file, "  TRACK 01 AUDIO", title, performer, "    INDEX 01 00:00:00");
  }

  lemma FiveSingleLines(l0: string, l1: string, l2: string, l3: string, l4: string)
    requires '\n' !in l0 && '\n' !in l1 && '\n' !in l2 && '\n' !in l3 && '\n' !in l4
    ensures NoLineBreaks([l0, l1, l2, l3, l4])
  {
  }

  lemma QuotedSingleLine(before: string, value: string, after: string)
    requires '\n' !in before && '\n' !in value && '\n' !in after
    ensures '\n' !in before + Quoted(value) + after
  {
  }

  lemma FileNameSingleLine(number: nat, title: string)
    requires '\n' !in title
    ensures '\n' !in TrackFileName(number, title)
  {
    var digits := Pad2(number);
    var safe := ReplaceChar(title, '/', FullwidthSolidus);
    ReplaceCharKeepsOut(title, '/', FullwidthSolidus, '\n');
    assert '\n' !in digits;
    assert TrackFileName(number, title) == digits + ". " + safe + ".flac";
    NotInFour('\n', digits, ". ", safe, ".flac");
  }

  lemma NotInFour<T>(x: T, a: seq<T>, b: seq<T>, c: seq<T>, d: seq<T>)
    requires x !in a && x !in b && x !in c && x !in d
    ensures x !in a + b + c + d
  {
  }

  lemma HeaderSingleLine(a: Album, d: Disc, addGeneratedBy: bool, version: string)
    requires SingleLineValues(a, d, version)
    ensures NoLineBreaks(CueHeaderLines(a, d) + [if addGeneratedBy then GeneratedByComment(version) else ""])
  {
    var ls := CueHeaderLines(a, d) + [if addGeneratedBy then GeneratedByComment(version) else ""];
    assert '\n' !in ls[0];
    assert '\n' !in ls[1];
    assert '\n' !in ls[2];
    assert '\n' !in ls[3];
  }

  lemma {:induction false} TracksSingleLine(a: Album, d: Disc, n: nat)
    requires n <= |d.tracks| && SingleLineValues(a, d, "")
    ensures NoLineBreaks(TracksCueLines(a, d, n))
  {
    if n > 0 {
      TracksSingleLine(a, d, n - 1);
      SingleLineTrack(a, d, n - 1);
    }
  }

  /**
   * Split at line breaks, the sheet is exactly `CueLines`: three header lines,
   * the comment line, then five lines per track in disc order.
   */
  lemma CueSheetLines(a: Album, d: Disc, addGeneratedBy: bool, version: string)
    requires SingleLineValues(a, d, version)
    ensures SplitOn(CueSheet(a, d, addGeneratedBy, version), '\n') == CueLines(a, d, addGeneratedBy, version)
  {
    var header := CueHeaderLines(a, d);
    var comment := if addGeneratedBy then GeneratedByComment(version) else "";
    var tracks := TracksCueLines(a, d, |d.tracks|);
    var ls := CueLines(a, d, addGeneratedBy, version);
    TerminatedThenJoin(header, comment, '\n');
    JoinThenPrefixed(header + [comment], tracks, '\n');
    CueBlocksPrefixed(a, d, |d.tracks|);
    assert Join(ls, '\n') == CueSheet(a, d, addGeneratedBy, version);
    HeaderSingleLine(a, d, addGeneratedBy, version);
    TracksSingleLine(a, d, |d.tracks|);
    assert ls == (header + [comment]) + tracks;
    SplitJoin(ls, '\n');
  }

  /** Lines 4+5k .. 4+5k+4 of the sheet are the block of track k+1. */
  lemma CueTrackBlock(a: Album, d: Disc, addGeneratedBy: bool, version: string, k: nat)
    requires k < |d.tracks|
    ensures |CueLines(a, d, addGeneratedBy, version)| == 4 + 5 * |d.tracks|
    ensures CueLines(a, d, addGeneratedBy, version)[4 + 5 * k..4 + 5 * k + 5] == TrackCueLines(a, d, k + 1, d.tracks[k])
  {
    var head := CueHeaderLines(a, d) + [if addGeneratedBy then GeneratedByComment(version) else ""];
    var tracks := TracksCueLines(a, d, |d.tracks|);
    TracksCueLinesAt(a, d, |d.tracks|, k);
    BlockAfterHead(head, tracks, TrackCueLines(a, d, k + 1, d.tracks[k]), k);
  }

  lemma BlockAfterHead(head: seq<string>, tracks: seq<string>, block: seq<string>, k: nat)
    requires 5 * k + 5 <= |tracks| && tracks[5 * k..5 * k + 5] == block
    ensures (head + tracks)[|head| + 5 * k..|head| + 5 * k + 5] == block
  {
    assert (head + tracks)[|head|..] == tracks;
  }

  /** The album field a `Title`, `Artist`, `Date` or `Cue` print selects. */
  datatype AlbumField = TitleField | ArtistField | DateField | CueField

  /** The last album loaded for a catalog: the one `pop()` takes. */
  function LastLoaded(stored: seq<StoredAlbum>, catalog: string): (r: Option<Album>)
    ensures r.Some? <==> exists k :: 0 <= k < |stored| && stored[k].album.catalog == catalog
    ensures r.Some? ==> r.value.catalog == catalog
  {
    var found := LoadAlbums(stored, catalog);
    if found == [] then None else Some(found[|found| - 1])
  }

  /** What is printed for one album: a field followed by a newline, or a disc's CUE sheet. */
  function PrintField(album: Album, field: AlbumField, discIndex: nat, addGeneratedBy: bool, version: string)
    : (r: Result<string, PrintError>)
    ensures field != CueField ==> r.Success? && |r.value| >= 1 && r.value[|r.value| - 1] == '\n'
    ensures field == TitleField ==> r == Success(album.title + "\n")
    ensures field == ArtistField ==> r == Success(album.artist + "\n")
    ensures field == DateField ==> r == Success(album.releaseDate + "\n")
    ensures field == CueField && discIndex < |album.discs| ==>
      r == Success(CueSheet(album, album.discs[discIndex], addGeneratedBy, version))
    ensures field == CueField ==> (r.Success? <==> discIndex < |album.discs|)
    ensures r.Failure? ==> r.error == DiscNotFound(discIndex + 1)
  {
    match field
    case TitleField => Success(album.title + "\n")
    case ArtistField => Success(album.artist + "\n")
    case DateField => Success(album.releaseDate + "\n")
    case CueField =>
      if discIndex < |album.discs| then Success(CueSheet(album, album.discs[discIndex], addGeneratedBy, version))
      else Failure(DiscNotFound(discIndex + 1))
  }

  /**
   * Title, artist, date or CUE output for a reference: the reference is parsed
   * first, then the LAST album loaded for its catalog is used.
   */
  function PrintAlbum(repo: Repository, field: AlbumField, input: string, addGeneratedBy: bool, version: string)
    : (r: Result<string, PrintError>)
  {
    var parsed := ParseReference(input);
    if parsed.Failure? then Failure(parsed.error)
    else
      var album := LastLoaded(repo.albums, parsed.value.catalog);
      if album.None? then Failure(AlbumNotFound)
      else PrintField(album.value, field, parsed.value.discIndex, addGeneratedBy, version)
  }

  /** `catalog/n` prints the CUE sheet of the n-th disc of the last album loaded for the catalog. */
  lemma PrintNthDisc(repo: Repository, catalog: string, album: Album, n: nat, addGeneratedBy: bool, version: string)
    requires '/' !in catalog && 1 <= n <= U32_MAX
    requires LastLoaded(repo.albums, catalog) == Some(album) && n <= |album.discs|
    ensures PrintAlbum(repo, CueField, RenderReference(catalog, n), addGeneratedBy, version)
            == Success(CueSheet(album, album.discs[n - 1], addGeneratedBy, version))
  {
    var input := RenderReference(catalog, n);
    assert ParseReference(input) == Success(Reference(catalog, n - 1)) by {
      RenderParseRoundTrip(catalog, n);
    }
    SelectedDiscSheet(repo, input, catalog, album, n - 1, addGeneratedBy, version);
  }

  /** The printing step as the command runs it: dispatch, then the CUE loop. */
  method RunPrintAlbum(repo: Repository, field: AlbumField, input: string, addGeneratedBy: bool, version: string)
    returns (r: Result<string, PrintError>)
    ensures r == PrintAlbum(repo, field, input, addGeneratedBy, version)
  {
    var parsed := ParseReference(input);
    if parsed.Failure? {
      return Failure(parsed.error);
    }
    var reference := parsed.value;
    var last := LastLoaded(repo.albums, reference.catalog);
    if last.None? {
      return Failure(AlbumNotFound);
    }
    var album := last.value;
    match field {
      case TitleField => r := Success(album.title + "\n");
      case ArtistField => r := Success(album.artist + "\n");
      case DateField => r := Success(album.releaseDate + "\n");
      case CueField =>
        if reference.discIndex < |album.discs| {
          var text := RenderCue(album, album.discs[reference.discIndex], addGeneratedBy, version);
          r := Success(text);
        } else {
          r := Failure(DiscNotFound(reference.discIndex + 1));
        }
    }
  }

  /** An invalid disc id is reported whatever the repository holds. */
  lemma InvalidIdBeforeLookup(repo: Repository, field: AlbumField, input: string, addGeneratedBy: bool, version: string)
    requires ParseReference(input).Failure?
    ensures PrintAlbum(repo, field, input, addGeneratedBy, version) == Failure(InvalidDiscId)
  {
  }

  /** `pop()` takes the last album stored under the catalog. */
  lemma {:induction false} LastLoadedIsLast(stored: seq<StoredAlbum>, catalog: string, k: nat)
    requires k < |stored| && stored[k].album.catalog == catalog
    requires forall j :: k < j < |stored| ==> stored[j].album.catalog != catalog
    ensures LastLoaded(stored, catalog) == Some(stored[k].album)
  {
    var rest := LoadAlbums(stored[1..], catalog);
    if k > 0 {
      assert forall j :: k - 1 < j < |stored[1..]| ==> stored[1..][j] == stored[j + 1];
      LastLoadedIsLast(stored[1..], catalog, k - 1);
    }
  }

  /** A disc past the end is reported with its 1-based number, and no sheet is produced. */
  lemma CueDiscPastEnd(repo: Repository, catalog: string, disc: nat, addGeneratedBy: bool, version: string)
    requires '/' !in catalog && 1 <= disc <= U32_MAX
    requires LastLoaded(repo.albums, catalog).Some? && disc > |LastLoaded(repo.albums, catalog).value.discs|
    ensures PrintAlbum(repo, CueField, RenderReference(catalog, disc), addGeneratedBy, version) == Failure(DiscNotFound(disc))
  {
    RenderParseRoundTrip(catalog, disc);
  }

  /** `catalog`, `catalog/0` and `catalog/1` print the same CUE sheet, that of the first disc. */
  lemma CueFirstDiscByDefault(repo: Repository, catalog: string, addGeneratedBy: bool, version: string)
    requires '/' !in catalog
    requires LastLoaded(repo.albums, catalog).Some? && LastLoaded(repo.albums, catalog).value.discs != []
    ensures var album := LastLoaded(repo.albums, catalog).value;
            var sheet := Success(CueSheet(album, album.discs[0], addGeneratedBy, version));
            PrintAlbum(repo, CueField, catalog, addGeneratedBy, version) == sheet
            && PrintAlbum(repo, CueField, catalog + "/0", addGeneratedBy, version) == sheet
            && PrintAlbum(repo, CueField, catalog + "/1", addGeneratedBy, version) == sheet
  {
    var album := LastLoaded(repo.albums, catalog).value;
    BareCatalogSelectsFirstDisc(catalog);
    DiscZeroAndOneAgree(catalog);
    SelectedDiscSheet(repo, catalog, catalog, album, 0, addGeneratedBy, version);
    SelectedDiscSheet(repo, catalog + "/0", catalog, album, 0, addGeneratedBy, version);
    SelectedDiscSheet(repo, catalog + "/1", catalog, album, 0, addGeneratedBy, version);
  }

  /** A reference to disc index i of a stored album prints that disc's sheet. */
  lemma SelectedDiscSheet(repo: Repository, input: string, catalog: string, album: Album, index: nat,
                          addGeneratedBy: bool, version: string)
    requires ParseReference(input) == Success(Reference(catalog, index))
    requires LastLoaded(repo.albums, catalog) == Some(album) && index < |album.discs|
    ensures PrintAlbum(repo, CueField, input, addGeneratedBy, version)
              == Success(CueSheet(album, album.discs[index], addGeneratedBy, version))
  {
  }

  // ---------------------------------------------------------------------------
  // TOML / JSON export: album id or catalog
  // ---------------------------------------------------------------------------

  /** The value of one hexadecimal digit, either case. */
  function HexValue(c: char): (r: Option<nat>)
    ensures r.Some? ==> r.value < 16
  {
    if '0' <= c <= '9' then Some(c as int - '0' as int)
    else if 'a' <= c <= 'f' then Some(c as int - 'a' as int + 10)
    else if 'A' <= c <= 'F' then Some(c as int - 'A' as int + 10)
    else None
  }

  /** The lower-case digit for a value below 16. */
  function HexChar(v: nat): (c: char)
    requires v < 16
    ensures HexValue(c) == Some(v)
  {
    if v < 10 then ('0' as int + v) as char else ('a' as int + v - 10) as char
  }

  function HexDigits(s: string): (r: Option<seq<nat>>)
    ensures r.Some? ==> |r.value| == |s| && forall i :: 0 <= i < |s| ==> r.value[i] < 16
  {
    if s == [] then Some([])
    else match (HexValue(s[0]), HexDigits(s[1..]))
      case (Some(v), Some(vs)) => Some([v] + vs)
      case _ => None
  }

  /**
   * `Uuid::parse_str` for the simple form (32 hex digits) and the hyphenated
   * form (groups of 8-4-4-4-12 hex digits joined by `-`).
   */
  function ParseUuid(s: string): (r: Option<Uuid>)
    ensures r.Some? ==> ValidUuid(r.value)
    ensures r.Some? ==> |s| == 32 || |s| == 36
  {
    var hex :=
      if |s| == 32 then HexDigits(s)
      else if |s| == 36 && s[8] == '-' && s[13] == '-' && s[18] == '-' && s[23] == '-' then
        HexDigits(s[..8] + s[9..13] + s[14..18] + s[19..23] + s[24..])
      else None;
    match hex
    case Some(ds) => Some(Uuid(ds))
    case None => None
  }

  /** The 32 lower-case digits of an id. */
  function SimpleForm(u: Uuid): (s: string)
    requires ValidUuid(u)
    ensures |s| == 32
  {
    seq(32, i requires 0 <= i < 32 => HexChar(u.digits[i]))
  }

  /** The 8-4-4-4-12 form of an id. */
  function HyphenatedForm(u: Uuid): (s: string)
    requires ValidUuid(u)
    ensures |s| == 36
  {
    var h := SimpleForm(u);
    h[..8] + "-" + h[8..12] + "-" + h[12..16] + "-" + h[16..20] + "-" + h[20..]
  }

  lemma {:induction false} HexDigitsOfHexChars(vs: seq<nat>)
    requires forall i :: 0 <= i < |vs| ==> vs[i] < 16
    ensures HexDigits(seq(|vs|, i requires 0 <= i < |vs| => HexChar(vs[i]))) == Some(vs)
  {
    var s := seq(|vs|, i requires 0 <= i < |vs| => HexChar(vs[i]));
    if vs != [] {
      assert s[1..] == seq(|vs[1..]|, i requires 0 <= i < |vs[1..]| => HexChar(vs[1..][i]));
      HexDigitsOfHexChars(vs[1..]);
      assert [vs[0]] + vs[1..] == vs;
    }
  }

  lemma ParseSimpleForm(u: Uuid)
    requires ValidUuid(u)
    ensures ParseUuid(SimpleForm(u)) == Some(u)
  {
    HexDigitsOfHexChars(u.digits);
  }

  lemma ParseHyphenatedForm(u: Uuid)
    requires ValidUuid(u)
    ensures ParseUuid(HyphenatedForm(u)) == Some(u)
  {
    var h := SimpleForm(u);
    var s := HyphenatedForm(u);
    assert s[..8] == h[..8] && s[9..13] == h[8..12] && s[14..18] == h[12..16];
    assert s[19..23] == h[16..20] && s[24..] == h[20..];
    assert h[..8] + h[8..12] + h[12..16] + h[16..20] + h[20..] == h;
    ParseSimpleForm(u);
  }

  /** An input of any length other than 32 or 36 is taken as a catalog. */
  lemma OtherLengthsAreCatalogs(s: string)
    requires |s| != 32 && |s| != 36
    ensures ParseUuid(s) == None
  {
  }

  /**
   * The album a TOML or JSON print exports: the album with that id when the
   * input parses as an id, otherwise the FIRST album loaded for the input as a
   * catalog. Both kinds select the same album; only the serialisation differs.
   */
  function SelectExport(repo: Repository, input: string): (r: Result<Album, PrintError>)
    ensures r.Failure? ==> r.error == AlbumNotFound
  {
    match ParseUuid(input)
    case Some(id) =>
      (match AlbumById(repo.albums, id)
       case Some(album) => Success(album)
       case None => Failure(AlbumNotFound))
    case None =>
      var found := LoadAlbums(repo.albums, input);
      if found == [] then Failure(AlbumNotFound) else Success(found[0])
  }

  /** Either textual form of a stored album's id exports that album. */
  lemma ExportById(repo: Repository, k: nat)
    requires k < |repo.albums| && ValidUuid(repo.albums[k].id)
    requires forall j :: 0 <= j < k ==> repo.albums[j].id != repo.albums[k].id
    ensures SelectExport(repo, SimpleForm(repo.albums[k].id)) == Success(repo.albums[k].album)
    ensures SelectExport(repo, HyphenatedForm(repo.albums[k].id)) == Success(repo.albums[k].album)
  {
    ParseSimpleForm(repo.albums[k].id);
    ParseHyphenatedForm(repo.albums[k].id);
    AlbumByIdFirst(repo.albums, k);
  }

  /** An input that is not an id exports the first album of that catalog. */
  lemma ExportByCatalog(repo: Repository, catalog: string, k: nat)
    requires ParseUuid(catalog) == None
    requires k < |repo.albums| && repo.albums[k].album.catalog == catalog
    requires forall j :: 0 <= j < k ==> repo.albums[j].album.catalog != catalog
    ensures SelectExport(repo, catalog) == Success(repo.albums[k].album)
  {
    FirstLoaded(repo.albums, catalog, k);
  }

  lemma {:induction false} FirstLoaded(stored: seq<StoredAlbum>, catalog: string, k: nat)
    requires k < |stored| && stored[k].album.catalog == catalog
    requires forall j :: 0 <= j < k ==> stored[j].album.catalog != catalog
    ensures LoadAlbums(stored, catalog) != [] && LoadAlbums(stored, catalog)[0] == stored[k].album
  {
    if k > 0 {
      assert forall j :: 0 <= j < k - 1 ==> stored[1..][j] == stored[j + 1];
      FirstLoaded(stored[1..], catalog, k - 1);
    }
  }

  /** With a catalog loaded twice, `title`/`cue` use the last album and `toml`/`json` the first. */
  lemma PrintAndExportPickOppositeEnds(repo: Repository, catalog: string)
    requires '/' !in catalog && ParseUuid(catalog) == None
    requires LoadAlbums(repo.albums, catalog) != []
    ensures var found := LoadAlbums(repo.albums, catalog);
            SelectExport(repo, catalog) == Success(found[0])
            && PrintAlbum(repo, TitleField, catalog, false, "") == Success(found[|found| - 1].title + "\n")
  {
    BareCatalogSelectsFirstDisc(catalog);
  }

  // ---------------------------------------------------------------------------
  // Tag tree
  // ---------------------------------------------------------------------------

  /** A node of the printed tree: its text and its children in order. */
  datatype Item = Item(text: string, children: seq<Item>)

  /**
   * The tree under construction: a stack of open nodes, the root first and
   * the node children are currently added to last.
   */
  class TreeBuilder {
    var stack: seq<Item>

    constructor(text: string)
      ensures stack == [Item(text, [])]
    {
      stack := [Item(text, [])];
    }

    /** Opens a child of the current node; it becomes the current node. */
    method BeginChild(text: string)
      modifies this
      ensures stack == old(stack) + [Item(text, [])]
    {
      stack := stack + [Item(text, [])];
    }

    /** Closes the current node and appends it to its parent's children. */
    method EndChild()
      requires |stack| >= 2
      modifies this
      ensures var n := |old(stack)|;
              stack == old(stack)[..n - 2] + [AddChild(old(stack)[n - 2], old(stack)[n - 1])]
    {
      var n := |stack|;
      stack := stack[..n - 2] + [AddChild(stack[n - 2], stack[n - 1])];
    }

    /** Appends a leaf to the current node. */
    method AddEmptyChild(text: string)
      requires |stack| >= 1
      modifies this
      ensures var n := |old(stack)|;
              stack == old(stack)[..n - 1] + [AddChild(old(stack)[n - 1], Item(text, []))]
    {
      BeginChild(text);
      EndChild();
    }

    /** The finished tree. */
    method Build() returns (root: Item)
      requires |stack| == 1
      ensures root == stack[0]
    {
      root := stack[0];
    }
  }

  function AddChild(parent: Item, child: Item): Item {
    Item(parent.text, parent.children + [child])
  }

  /** `[{type:?}] {name}` of a known tag. */
  function TagLabel(repo: Repository, tag: TagRef): string
    requires tag in repo.tags
  {
    "[" + repo.tags[tag].tagType + "] " + repo.tags[tag].name
  }

  function ChildTags(repo: Repository, tag: TagRef): seq<TagRef> {
    if tag in repo.childTags then repo.childTags[tag] else []
  }

  function TaggedAlbums(repo: Repository, tag: TagRef): seq<Uuid> {
    if tag in repo.taggedAlbums then repo.taggedAlbums[tag] else []
  }

  /**
   * What the recursion relies on to end: every known tag and every child tag
   * has a rank, and ranks strictly decrease from a tag to its child tags, so
   * the child relation has no cycle.
   */
  ghost predicate Ranked(repo: Repository, rank: map<TagRef, nat>) {
    (forall t :: t in repo.tags ==> t in rank)
    && (forall t, i :: t in repo.childTags && 0 <= i < |repo.childTags[t]| ==>
          t in rank && repo.childTags[t][i] in rank && rank[repo.childTags[t][i]] < rank[t])
  }

  /**
   * Building the tree of `tag` finds everything it unwraps: its child tags are
   * known tags whose own trees are `Known`, and its tagged albums are stored.
   */
  ghost predicate Known(repo: Repository, rank: map<TagRef, nat>, tag: TagRef)
    requires Ranked(repo, rank) && tag in rank
    decreases rank[tag], 1
  {
    ChildrenKnown(repo, rank, tag, |ChildTags(repo, tag)|) && AlbumsStored(TaggedAlbums(repo, tag), repo)
  }

  /** The first `n` child tags of `tag` are known, and so are their trees. */
  ghost predicate ChildrenKnown(repo: Repository, rank: map<TagRef, nat>, tag: TagRef, n: nat)
    requires Ranked(repo, rank) && tag in rank && n <= |ChildTags(repo, tag)|
    decreases rank[tag], 0
  {
    var cs := ChildTags(repo, tag);
    forall i :: 0 <= i < n ==> cs[i] in repo.tags && Known(repo, rank, cs[i])
  }

  /** Every album id in `ids` is a stored album. */
  ghost predicate AlbumsStored(ids: seq<Uuid>, repo: Repository) {
    forall j :: 0 <= j < |ids| ==> AlbumById(repo.albums, ids[j]).Some?
  }

  /** An unknown child tag makes the print panic (`tag_to_string`'s `unwrap`). */
  lemma UnknownChildPanics(repo: Repository, rank: map<TagRef, nat>, tag: TagRef, i: nat)
    requires Ranked(repo, rank) && tag in rank
    requires i < |ChildTags(repo, tag)| && ChildTags(repo, tag)[i] !in repo.tags
    ensures !Known(repo, rank, tag)
  {
  }

  /** A tagged album that is not stored makes the print panic (`manager.album(..).unwrap()`). */
  lemma UnstoredAlbumPanics(repo: Repository, rank: map<TagRef, nat>, tag: TagRef, j: nat)
    requires Ranked(repo, rank) && tag in rank
    requires j < |TaggedAlbums(repo, tag)| && AlbumById(repo.albums, TaggedAlbums(repo, tag)[j]).None?
    ensures !Known(repo, rank, tag)
  {
  }

  /** A panic anywhere below a child tag is a panic of the whole print. */
  lemma ChildPanicSpreads(repo: Repository, rank: map<TagRef, nat>, tag: TagRef, i: nat)
    requires Ranked(repo, rank) && tag in rank && i < |ChildTags(repo, tag)|
    requires ChildTags(repo, tag)[i] in rank && !Known(repo, rank, ChildTags(repo, tag)[i])
    ensures !Known(repo, rank, tag)
  {
  }

  /** The leaf for a tagged album, labelled with its title. */
  function AlbumLeaf(repo: Repository, id: Uuid): Item
    requires AlbumById(repo.albums, id).Some?
  {
    Item(AlbumById(repo.albums, id).value.title, [])
  }

  /** The tree of a tag: its child tags' trees first, then its albums as leaves. */
  ghost function TagTreeOf(repo: Repository, rank: map<TagRef, nat>, tag: TagRef): Item
    requires Ranked(repo, rank) && tag in repo.tags && Known(repo, rank, tag)
    decreases rank[tag], 2
  {
    Item(TagLabel(repo, tag), ChildTreesOf(repo, rank, tag, |ChildTags(repo, tag)|) + AlbumLeaves(repo, TaggedAlbums(repo, tag)))
  }

  /** The trees of a tag's first `n` child tags, in order. */
  ghost function ChildTreesOf(repo: Repository, rank: map<TagRef, nat>, tag: TagRef, n: nat): (trees: seq<Item>)
    requires Ranked(repo, rank) && tag in rank && n <= |ChildTags(repo, tag)| && ChildrenKnown(repo, rank, tag, n)
    ensures |trees| == n
    decreases rank[tag], 1
  {
    var cs := ChildTags(repo, tag);
    seq(n, i requires 0 <= i < n => TagTreeOf(repo, rank, cs[i]))
  }

  /** The leaves of the given albums, in order. */
  function AlbumLeaves(repo: Repository, ids: seq<Uuid>): (leaves: seq<Item>)
    requires AlbumsStored(ids, repo)
    ensures |leaves| == |ids|
  {
    seq(|ids|, j requires 0 <= j < |ids| => AlbumLeaf(repo, ids[j]))
  }

  /** The stack with `more` appended to the children of its current (last) node. */
  function Extend(stack: seq<Item>, more: seq<Item>): (s: seq<Item>)
    requires |stack| >= 1
    ensures |s| == |stack| && s[..|s| - 1] == stack[..|stack| - 1]
    ensures s[|s| - 1] == Item(stack[|stack| - 1].text, stack[|stack| - 1].children + more)
  {
    var n := |stack|;
    stack[..n - 1] + [Item(stack[n - 1].text, stack[n - 1].children + more)]
  }

  /** Appending in two steps is appending the concatenation. */
  lemma ExtendTwice(stack: seq<Item>, first: seq<Item>, second: seq<Item>)
    requires |stack| >= 1
    ensures Extend(Extend(stack, first), second) == Extend(stack, first + second)
  {
    var top := stack[|stack| - 1];
    assert (top.children + first) + second == top.children + (first + second);
  }

  /** Adding one child is extending by that child. */
  lemma ExtendOne(stack: seq<Item>, child: Item)
    requires |stack| >= 1
    ensures stack[..|stack| - 1] + [AddChild(stack[|stack| - 1], child)] == Extend(stack, [child])
  {
  }

  /**
   * Appends the children of `tag`'s tree to the current node of `tree`, and
   * reports whether that got through without a panic.
   */
  method BuildTree(repo: Repository, ghost rank: map<TagRef, nat>, tag: TagRef, tree: TreeBuilder) returns (ok: bool)
    requires Ranked(repo, rank) && tag in repo.tags && |tree.stack| >= 1
    modifies tree
    ensures ok == Known(repo, rank, tag)
    ensures ok ==> tree.stack == Extend(old(tree.stack), TagTreeOf(repo, rank, tag).children)
    decreases rank[tag], 2
  {
    ghost var start := tree.stack;
    ok := AddChildTrees(repo, rank, tag, tree);
    if !ok {
      return;
    }
    ghost var middle := tree.stack;
    ok := AddAlbumLeaves(repo, tag, tree);
    if ok {
      ExtendTwice(start, ChildTreesOf(repo, rank, tag, |ChildTags(repo, tag)|), AlbumLeaves(repo, TaggedAlbums(repo, tag)));
    }
  }

  /** The child tags' trees, in order, appended to the current node; false on a panic. */
  method AddChildTrees(repo: Repository, ghost rank: map<TagRef, nat>, tag: TagRef, tree: TreeBuilder) returns (ok: bool)
    requires Ranked(repo, rank) && tag in repo.tags && |tree.stack| >= 1
    modifies tree
    ensures ok == ChildrenKnown(repo, rank, tag, |ChildTags(repo, tag)|)
    ensures ok ==> tree.stack == Extend(old(tree.stack), ChildTreesOf(repo, rank, tag, |ChildTags(repo, tag)|))
    decreases rank[tag], 1
  {
    ghost var start := tree.stack;
    var cs := ChildTags(repo, tag);
    ExtendNothing(start);
    for i := 0 to |cs|
      invariant ChildrenKnown(repo, rank, tag, i)
      invariant |tree.stack| == |start|
      invariant tree.stack == Extend(start, ChildTreesOf(repo, rank, tag, i))
    {
      if cs[i] !in repo.tags {
        UnknownChildPanics(repo, rank, tag, i);
        return false;
      }
      var childOk := AddTagChild(repo, rank, cs[i], tree);
      if !childOk {
        ChildPanicSpreads(repo, rank, tag, i);
        return false;
      }
      ExtendTwice(start, ChildTreesOf(repo, rank, tag, i), [TagTreeOf(repo, rank, cs[i])]);
      assert ChildTreesOf(repo, rank, tag, i + 1) == ChildTreesOf(repo, rank, tag, i) + [TagTreeOf(repo, rank, cs[i])];
    }
    ok := true;
  }

  /** Extending by nothing leaves the stack as it is. */
  lemma ExtendNothing(stack: seq<Item>)
    requires |stack| >= 1
    ensures Extend(stack, []) == stack
  {
    assert stack[|stack| - 1].children + [] == stack[|stack| - 1].children;
  }

  /** One child tag: its node is opened, filled by the recursion, and closed; false on a panic. */
  method AddTagChild(repo: Repository, ghost rank: map<TagRef, nat>, child: TagRef, tree: TreeBuilder) returns (ok: bool)
    requires Ranked(repo, rank) && child in repo.tags && |tree.stack| >= 1
    modifies tree
    ensures ok == Known(repo, rank, child)
    ensures ok ==> tree.stack == Extend(old(tree.stack), [TagTreeOf(repo, rank, child)])
    decreases rank[child], 3
  {
    ghost var start := tree.stack;
    tree.BeginChild(TagLabel(repo, child));
    ghost var inner := tree.stack;
    ok := BuildTree(repo, rank, child, tree);
    if !ok {
      return;
    }
    ghost var sub := TagTreeOf(repo, rank, child);
    assert inner[..|inner| - 1] == start;
    assert sub == Item(TagLabel(repo, child), [] + sub.children);
    assert tree.stack == start + [sub];
    tree.EndChild();
    assert (start + [sub])[..|start| - 1] == start[..|start| - 1];
    ExtendOne(start, sub);
  }

  /**
   * The albums `tag` marks, each as a leaf labelled with its title, appended
   * to the current node; false when one of them is not stored.
   */
  method AddAlbumLeaves(repo: Repository, tag: TagRef, tree: TreeBuilder) returns (ok: bool)
    requires |tree.stack| >= 1
    modifies tree
    ensures ok == AlbumsStored(TaggedAlbums(repo, tag), repo)
    ensures ok ==> tree.stack == Extend(old(tree.stack), AlbumLeaves(repo, TaggedAlbums(repo, tag)))
  {
    ghost var start := tree.stack;
    var ids := TaggedAlbums(repo, tag);
    ExtendNothing(start);
    assert ids[..0] == [];
    for j := 0 to |ids|
      invariant AlbumsStored(ids[..j], repo)
      invariant |tree.stack| == |start|
      invariant tree.stack == Extend(start, AlbumLeaves(repo, ids[..j]))
    {
      var album := AlbumById(repo.albums, ids[j]);
      if album.None? {
        return false;
      }
      ghost var before := tree.stack;
      tree.AddEmptyChild(album.value.title);
      ExtendOne(before, AlbumLeaf(repo, ids[j]));
      ExtendTwice(start, AlbumLeaves(repo, ids[..j]), [AlbumLeaf(repo, ids[j])]);
      assert ids[..j + 1] == ids[..j] + [ids[j]];
      assert AlbumLeaves(repo, ids[..j + 1]) == AlbumLeaves(repo, ids[..j]) + [AlbumLeaf(repo, ids[j])];
    }
    assert ids[..|ids|] == ids;
    ok := true;
  }

  /**
   * The tag-tree print: an unknown tag is an error, a missing child tag or
   * tagged album anywhere below it a panic, otherwise the tag's whole tree.
   */
  method PrintTagTree(repo: Repository, ghost rank: map<TagRef, nat>, tag: TagRef) returns (r: Result<Item, PrintError>)
    requires Ranked(repo, rank)
    ensures tag !in repo.tags ==> r == Failure(TagNotFound)
    ensures tag in repo.tags && !Known(repo, rank, tag) ==> r == Failure(MissingTagEntry)
    ensures tag in repo.tags && Known(repo, rank, tag) ==> r == Success(TagTreeOf(repo, rank, tag))
  {
    if tag !in repo.tags {
      return Failure(TagNotFound);
    }
    var tree := new TreeBuilder(TagLabel(repo, tag));
    var ok := BuildTree(repo, rank, tag, tree);
    if !ok {
      return Failure(MissingTagEntry);
    }
    ghost var whole := TagTreeOf(repo, rank, tag);
    assert [] + whole.children == whole.children;
    assert tree.stack == [Item(TagLabel(repo, tag), whole.children)] == [whole];
    var root := tree.Build();
    r := Success(root);
  }

  /** Height of a tree: a leaf has height 1. */
  function Height(item: Item): (h: nat)
    ensures h >= 1
  {
    1 + MaxHeight(item.children)
  }

  function MaxHeight(items: seq<Item>): nat {
    if items == [] then 0
    else
      var rest := MaxHeight(items[1..]);
      var first := Height(items[0]);
      if first > rest then first else rest
  }

  lemma {:induction false} MaxHeightBound(items: seq<Item>, bound: nat)
    requires forall i :: 0 <= i < |items| ==> Height(items[i]) <= bound
    ensures MaxHeight(items) <= bound
  {
    if items != [] {
      MaxHeightBound(items[1..], bound);
    }
  }

  /** A tag's tree is at most two levels taller than its rank: the recursion is bounded. */
  lemma {:induction false} TagTreeHeight(repo: Repository, rank: map<TagRef, nat>, tag: TagRef)
    requires Ranked(repo, rank) && tag in repo.tags && Known(repo, rank, tag)
    ensures Height(TagTreeOf(repo, rank, tag)) <= rank[tag] + 2
    decreases rank[tag], 1
  {
    var trees := ChildTreesOf(repo, rank, tag, |ChildTags(repo, tag)|);
    var leaves := AlbumLeaves(repo, TaggedAlbums(repo, tag));
    ChildTreesHeight(repo, rank, tag);
    LeavesHeight(repo, TaggedAlbums(repo, tag));
    MaxHeightBoundConcat(trees, leaves, rank[tag] + 1);
  }

  /** Each child tag's tree is at most one level taller than the tag's rank. */
  lemma {:induction false} ChildTreesHeight(repo: Repository, rank: map<TagRef, nat>, tag: TagRef)
    requires Ranked(repo, rank) && tag in repo.tags && Known(repo, rank, tag)
    ensures forall i :: 0 <= i < |ChildTags(repo, tag)| ==>
              Height(ChildTreesOf(repo, rank, tag, |ChildTags(repo, tag)|)[i]) <= rank[tag] + 1
    decreases rank[tag], 0
  {
    var cs := ChildTags(repo, tag);
    var trees := ChildTreesOf(repo, rank, tag, |cs|);
    forall i | 0 <= i < |cs|
      ensures Height(trees[i]) <= rank[tag] + 1
    {
      TagTreeHeight(repo, rank, cs[i]);
    }
  }

  /** An album leaf has height 1. */
  lemma LeavesHeight(repo: Repository, ids: seq<Uuid>)
    requires AlbumsStored(ids, repo)
    ensures forall j :: 0 <= j < |AlbumLeaves(repo, ids)| ==> Height(AlbumLeaves(repo, ids)[j]) == 1
  {
    var leaves := AlbumLeaves(repo, ids);
    forall j | 0 <= j < |leaves|
      ensures Height(leaves[j]) == 1
    {
      assert leaves[j].children == [];
    }
  }

  lemma MaxHeightBoundConcat(xs: seq<Item>, ys: seq<Item>, bound: nat)
    requires forall i :: 0 <= i < |xs| ==> Height(xs[i]) <= bound
    requires forall j :: 0 <= j < |ys| ==> Height(ys[j]) <= bound
    ensures MaxHeight(xs + ys) <= bound
  {
    var both := xs + ys;
    forall i | 0 <= i < |both|
      ensures Height(both[i]) <= bound
    {
      if i >= |xs| {
        assert both[i] == ys[i - |xs|];
      }
    }
    MaxHeightBound(both, bound);
  }

  /** The labels of a tag's children: child tags in order, then tagged album titles in order. */
  lemma TagTreeChildLabels(repo: Repository, rank: map<TagRef, nat>, tag: TagRef)
    requires Ranked(repo, rank) && tag in repo.tags && Known(repo, rank, tag)
    ensures var tree := TagTreeOf(repo, rank, tag);
            var cs := ChildTags(repo, tag);
            var ids := TaggedAlbums(repo, tag);
            tree.text == TagLabel(repo, tag)
            && |tree.children| == |cs| + |ids|
            && (forall i :: 0 <= i < |cs| ==> cs[i] in repo.tags && tree.children[i].text == TagLabel(repo, cs[i]))
            && (forall j :: 0 <= j < |ids| ==>
                  tree.children[|cs| + j] == Item(AlbumById(repo.albums, ids[j]).value.title, []))
  {
    var cs := ChildTags(repo, tag);
    var ids := TaggedAlbums(repo, tag);
    assert |TagTreeOf(repo, rank, tag).children| == |ChildTreesOf(repo, rank, tag, |cs|)| + |AlbumLeaves(repo, ids)|;
    forall i | 0 <= i < |cs|
      ensures ChildTreeLabel(repo, rank, tag, i)
    {
      ChildTreeLabelHolds(repo, rank, tag, i);
    }
    forall j | 0 <= j < |ids|
      ensures AlbumLeafAt(repo, rank, tag, j)
    {
      AlbumLeafAtHolds(repo, rank, tag, j);
    }
  }

  /** Child `i` of the tree of `tag` is labelled with the `i`-th child tag. */
  ghost predicate ChildTreeLabel(repo: Repository, rank: map<TagRef, nat>, tag: TagRef, i: nat)
    requires Ranked(repo, rank) && tag in repo.tags && Known(repo, rank, tag) && i < |ChildTags(repo, tag)|
  {
    var tree := TagTreeOf(repo, rank, tag);
    var cs := ChildTags(repo, tag);
    |tree.children| > i && cs[i] in repo.tags && tree.children[i].text == TagLabel(repo, cs[i])
  }

  lemma ChildTreeLabelHolds(repo: Repository, rank: map<TagRef, nat>, tag: TagRef, i: nat)
    requires Ranked(repo, rank) && tag in repo.tags && Known(repo, rank, tag) && i < |ChildTags(repo, tag)|
    ensures ChildTreeLabel(repo, rank, tag, i)
  {
    var cs := ChildTags(repo, tag);
    var trees := ChildTreesOf(repo, rank, tag, |cs|);
    assert TagTreeOf(repo, rank, tag).children[i] == trees[i] == TagTreeOf(repo, rank, cs[i]);
  }

  /** Child `|cs| + j` of the tree of `tag` is the leaf of its `j`-th tagged album. */
  ghost predicate AlbumLeafAt(repo: Repository, rank: map<TagRef, nat>, tag: TagRef, j: nat)
    requires Ranked(repo, rank) && tag in repo.tags && Known(repo, rank, tag) && j < |TaggedAlbums(repo, tag)|
  {
    var tree := TagTreeOf(repo, rank, tag);
    var ids := TaggedAlbums(repo, tag);
    |tree.children| > |ChildTags(repo, tag)| + j && AlbumById(repo.albums, ids[j]).Some?
    && tree.children[|ChildTags(repo, tag)| + j] == Item(AlbumById(repo.albums, ids[j]).value.title, [])
  }

  lemma AlbumLeafAtHolds(repo: Repository, rank: map<TagRef, nat>, tag: TagRef, j: nat)
    requires Ranked(repo, rank) && tag in repo.tags && Known(repo, rank, tag) && j < |TaggedAlbums(repo, tag)|
    ensures AlbumLeafAt(repo, rank, tag, j)
  {
    var cs := ChildTags(repo, tag);
    var leaves := AlbumLeaves(repo, TaggedAlbums(repo, tag));
    assert TagTreeOf(repo, rank, tag).children[|cs| + j] == leaves[j];
  }
}
