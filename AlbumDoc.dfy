/**
 * The album document model: an album holds discs, a disc holds tracks, and a
 * disc or track that omits its artist, type (and, for a disc, its title)
 * inherits it from its parent.
 *
 * A document as written is an `Album` whose optional fields are `None` where
 * the text omits them. Loading a document fills every omitted field with its
 * inherited value (`Inherited`); `format()` does the reverse and drops every
 * field equal to the value it would inherit (`Formatted`). Both keep the
 * resolved view (`View`), which is what the accessors `track.artist()`,
 * `track.track_type()`, `disc.title()`, ... return.
 */
module AlbumDoc {
  import opened Wrappers

  datatype TrackType = Normal | Instrumental | Absolute | Drama | Radio | Vocal

  /** The lower-case spelling a document uses for a type. */
  function TypeName(t: TrackType): string {
    match t
    case Normal => "normal"
    case Instrumental => "instrumental"
    case Absolute => "absolute"
    case Drama => "drama"
    case Radio => "radio"
    case Vocal => "vocal"
  }

  /** A lyric reference: a file name and an offset in milliseconds, if given. */
  datatype Lyric = Lyric(file: string, offset: Option<int>)

  datatype Track = Track(title: string, artist: Option<string>, trackType: Option<TrackType>, lyric: Option<Lyric>)

  datatype Disc = Disc(catalog: string, title: Option<string>, artist: Option<string>, discType: Option<TrackType>, tracks: seq<Track>)

  datatype Album = Album(title: string, artist: string, releaseDate: string, albumType: TrackType, catalog: string, discs: seq<Disc>)

  // ---------------------------------------------------------------------
  // Resolved accessors: an omitted field falls back to the parent's value.
  // ---------------------------------------------------------------------

  function DiscTitle(a: Album, d: Disc): string { d.title.GetOr(a.title) }

  function DiscArtist(a: Album, d: Disc): string { d.artist.GetOr(a.artist) }

  function DiscType(a: Album, d: Disc): TrackType { d.discType.GetOr(a.albumType) }

  function TrackArtist(a: Album, d: Disc, t: Track): string { t.artist.GetOr(DiscArtist(a, d)) }

  function TrackKind(a: Album, d: Disc, t: Track): TrackType { t.trackType.GetOr(DiscType(a, d)) }

  /** The resolved view of an album: every field as its accessor returns it. */
  datatype TrackView = TrackView(title: string, artist: string, kind: TrackType, lyric: Option<Lyric>)

  datatype DiscView = DiscView(catalog: string, title: string, artist: string, kind: TrackType, tracks: seq<TrackView>)

  datatype AlbumView = AlbumView(title: string, artist: string, releaseDate: string, kind: TrackType, catalog: string, discs: seq<DiscView>)

  function TrackViewOf(a: Album, d: Disc, t: Track): TrackView {
    TrackView(t.title, TrackArtist(a, d, t), TrackKind(a, d, t), t.lyric)
  }

  function DiscViewOf(a: Album, d: Disc): DiscView {
    DiscView(d.catalog, DiscTitle(a, d), DiscArtist(a, d), DiscType(a, d),
             seq(|d.tracks|, j requires 0 <= j < |d.tracks| => TrackViewOf(a, d, d.tracks[j])))
  }

  function View(a: Album): AlbumView {
    AlbumView(a.title, a.artist, a.releaseDate, a.albumType, a.catalog,
              seq(|a.discs|, i requires 0 <= i < |a.discs| => DiscViewOf(a, a.discs[i])))
  }

  // ---------------------------------------------------------------------
  // Loading: every omitted field is filled in with its inherited value.
  // ---------------------------------------------------------------------

  function InheritTrack(a: Album, d: Disc, t: Track): Track {
    Track(t.title, Some(TrackArtist(a, d, t)), Some(TrackKind(a, d, t)), t.lyric)
  }

  function InheritDisc(a: Album, d: Disc): Disc {
    Disc(d.catalog, Some(DiscTitle(a, d)), Some(DiscArtist(a, d)), Some(DiscType(a, d)),
         seq(|d.tracks|, j requires 0 <= j < |d.tracks| => InheritTrack(a, d, d.tracks[j])))
  }

  /** The album `Album::from_str` yields for a document as written. */
  function Inherited(a: Album): Album {
    a.(discs := seq(|a.discs|, i requires 0 <= i < |a.discs| => InheritDisc(a, a.discs[i])))
  }

  /** Every disc and track field is present. */
  predicate Explicit(a: Album) {
    forall i :: 0 <= i < |a.discs| ==>
      var d := a.discs[i];
      d.title.Some? && d.artist.Some? && d.discType.Some? &&
      forall j :: 0 <= j < |d.tracks| ==> d.tracks[j].artist.Some? && d.tracks[j].trackType.Some?
  }

  // ---------------------------------------------------------------------
  // format(): every field equal to its inherited value is dropped.
  // ---------------------------------------------------------------------

  function Strip<T(==)>(v: Option<T>, inherited: T): Option<T> {
    if v == Some(inherited) then None else v
  }

  function FormatTrack(a: Album, d: Disc, t: Track): Track {
    t.(artist := Strip(t.artist, DiscArtist(a, d)), trackType := Strip(t.trackType, DiscType(a, d)))
  }

  function FormatDisc(a: Album, d: Disc): Disc {
    d.(title := Strip(d.title, a.title), artist := Strip(d.artist, a.artist),
       discType := Strip(d.discType, a.albumType),
       tracks := seq(|d.tracks|, j requires 0 <= j < |d.tracks| => FormatTrack(a, d, d.tracks[j])))
  }

  /** The album after `album.format()`. */
  function Formatted(a: Album): Album {
    a.(discs := seq(|a.discs|, i requires 0 <= i < |a.discs| => FormatDisc(a, a.discs[i])))
  }

  /** No disc or track field repeats the value it would inherit. */
  predicate Compact(a: Album) {
    forall i :: 0 <= i < |a.discs| ==>
      var d := a.discs[i];
      d.title != Some(a.title) && d.artist != Some(a.artist) && d.discType != Some(a.albumType) &&
      forall j :: 0 <= j < |d.tracks| ==>
        d.tracks[j].artist != Some(DiscArtist(a, d)) && d.tracks[j].trackType != Some(DiscType(a, d))
  }

  // ---------------------------------------------------------------------
  // Laws of inheritance and compaction.
  // ---------------------------------------------------------------------

  /** A track that omits artist or type resolves to its disc's (and so its album's) value. */
  lemma OmittedFieldsInherit(a: Album, i: nat, j: nat)
    requires i < |a.discs| && j < |a.discs[i].tracks|
    ensures var d := a.discs[i]; var t := d.tracks[j];
      && (t.artist == None && d.artist == None ==> TrackArtist(a, d, t) == a.artist)
      && (t.trackType == None && d.discType == None ==> TrackKind(a, d, t) == a.albumType)
      && (d.title == None ==> DiscTitle(a, d) == a.title)
  {
  }

  /** An explicit value overrides whatever would be inherited. */
  lemma ExplicitFieldsOverride(a: Album, i: nat, j: nat)
    requires i < |a.discs| && j < |a.discs[i].tracks|
    ensures var d := a.discs[i]; var t := d.tracks[j];
      && (t.artist.Some? ==> TrackArtist(a, d, t) == t.artist.value)
      && (t.trackType.Some? ==> TrackKind(a, d, t) == t.trackType.value)
      && (d.artist.Some? ==> DiscArtist(a, d) == d.artist.value)
  {
  }

  lemma {:induction false} InheritKeepsView(a: Album)
    ensures View(Inherited(a)) == View(a)
  {
    var e := Inherited(a);
    forall i | 0 <= i < |a.discs|
      ensures DiscViewOf(e, e.discs[i]) == DiscViewOf(a, a.discs[i])
    {
      var d, ed := a.discs[i], e.discs[i];
      assert |ed.tracks| == |d.tracks|;
      forall j | 0 <= j < |d.tracks|
        ensures TrackViewOf(e, ed, ed.tracks[j]) == TrackViewOf(a, d, d.tracks[j])
      {
      }
      assert DiscViewOf(e, ed).tracks == DiscViewOf(a, d).tracks;
    }
    assert View(e).discs == View(a).discs;
  }

  lemma InheritedIsExplicit(a: Album)
    ensures Explicit(Inherited(a))
  {
  }

  lemma {:induction false} FormatKeepsView(a: Album)
    ensures View(Formatted(a)) == View(a)
  {
    var f := Formatted(a);
    forall i | 0 <= i < |a.discs|
      ensures DiscViewOf(f, f.discs[i]) == DiscViewOf(a, a.discs[i])
    {
      var d, fd := a.discs[i], f.discs[i];
      assert DiscArtist(f, fd) == DiscArtist(a, d);
      assert DiscType(f, fd) == DiscType(a, d);
      assert |fd.tracks| == |d.tracks|;
      forall j | 0 <= j < |d.tracks|
        ensures TrackViewOf(f, fd, fd.tracks[j]) == TrackViewOf(a, d, d.tracks[j])
      {
      }
      assert DiscViewOf(f, fd).tracks == DiscViewOf(a, d).tracks;
    }
    assert View(f).discs == View(a).discs;
  }

  lemma {:induction false} FormattedIsCompact(a: Album)
    ensures Compact(Formatted(a))
  {
    var f := Formatted(a);
    forall i | 0 <= i < |f.discs|
      ensures var d := f.discs[i];
        forall j :: 0 <= j < |d.tracks| ==>
          d.tracks[j].artist != Some(DiscArtist(f, d)) && d.tracks[j].trackType != Some(DiscType(f, d))
    {
      assert DiscArtist(f, f.discs[i]) == DiscArtist(a, a.discs[i]);
      assert DiscType(f, f.discs[i]) == DiscType(a, a.discs[i]);
    }
  }

  /** format() keeps every field that differs from its inherited value, unchanged. */
  lemma FormatKeepsOverrides(a: Album, i: nat, j: nat)
    requires i < |a.discs| && j < |a.discs[i].tracks|
    ensures var d := a.discs[i]; var t := d.tracks[j];
      var fd := Formatted(a).discs[i]; var ft := fd.tracks[j];
      && (d.title != Some(a.title) ==> fd.title == d.title)
      && (d.artist != Some(a.artist) ==> fd.artist == d.artist)
      && (d.discType != Some(a.albumType) ==> fd.discType == d.discType)
      && (t.artist != Some(DiscArtist(a, d)) ==> ft.artist == t.artist)
      && (t.trackType != Some(DiscType(a, d)) ==> ft.trackType == t.trackType)
      && ft.title == t.title && ft.lyric == t.lyric && fd.catalog == d.catalog
  {
  }

  /** format() leaves the album header and the number and order of discs and tracks as they were. */
  lemma FormatKeepsHeaderAndOrder(a: Album)
    ensures var f := Formatted(a);
      && f.title == a.title && f.artist == a.artist && f.releaseDate == a.releaseDate
      && f.albumType == a.albumType && f.catalog == a.catalog && |f.discs| == |a.discs|
      && forall i :: 0 <= i < |a.discs| ==>
           f.discs[i].catalog == a.discs[i].catalog && |f.discs[i].tracks| == |a.discs[i].tracks|
           && forall j :: 0 <= j < |a.discs[i].tracks| ==> f.discs[i].tracks[j].title == a.discs[i].tracks[j].title
  {
  }

  /** What format() produces depends only on the resolved view. */
  lemma {:induction false} FormatDependsOnViewOnly(a: Album, b: Album)
    requires View(a) == View(b)
    ensures Formatted(a) == Formatted(b)
  {
    var fa, fb := Formatted(a), Formatted(b);
    assert |a.discs| == |View(a).discs| == |View(b).discs| == |b.discs|;
    forall i | 0 <= i < |a.discs|
      ensures fa.discs[i] == fb.discs[i]
    {
      var da, db := a.discs[i], b.discs[i];
      assert DiscViewOf(a, da) == View(a).discs[i] == View(b).discs[i] == DiscViewOf(b, db);
      assert |da.tracks| == |DiscViewOf(a, da).tracks| == |db.tracks|;
      forall j | 0 <= j < |da.tracks|
        ensures fa.discs[i].tracks[j] == fb.discs[i].tracks[j]
      {
        assert TrackViewOf(a, da, da.tracks[j]) == DiscViewOf(a, da).tracks[j]
            == DiscViewOf(b, db).tracks[j] == TrackViewOf(b, db, db.tracks[j]);
      }
      assert fa.discs[i].tracks == fb.discs[i].tracks;
    }
    assert fa.discs == fb.discs;
  }

  /** What loading produces depends only on the resolved view. */
  lemma {:induction false} InheritDependsOnViewOnly(a: Album, b: Album)
    requires View(a) == View(b)
    ensures Inherited(a) == Inherited(b)
  {
    var ea, eb := Inherited(a), Inherited(b);
    assert |a.discs| == |View(a).discs| == |View(b).discs| == |b.discs|;
    forall i | 0 <= i < |a.discs|
      ensures ea.discs[i] == eb.discs[i]
    {
      var da, db := a.discs[i], b.discs[i];
      assert DiscViewOf(a, da) == View(a).discs[i] == View(b).discs[i] == DiscViewOf(b, db);
      assert |da.tracks| == |DiscViewOf(a, da).tracks| == |db.tracks|;
      forall j | 0 <= j < |da.tracks|
        ensures ea.discs[i].tracks[j] == eb.discs[i].tracks[j]
      {
        assert TrackViewOf(a, da, da.tracks[j]) == DiscViewOf(a, da).tracks[j]
            == DiscViewOf(b, db).tracks[j] == TrackViewOf(b, db, db.tracks[j]);
      }
      assert ea.discs[i].tracks == eb.discs[i].tracks;
    }
    assert ea.discs == eb.discs;
  }

  /** Formatting twice is formatting once. */
  lemma FormatIdempotent(a: Album)
    ensures Formatted(Formatted(a)) == Formatted(a)
  {
    FormatKeepsView(a);
    FormatDependsOnViewOnly(Formatted(a), a);
  }

  /** Loading a formatted album gives back the loaded album, and the other way round. */
  lemma FormatInheritRoundTrip(a: Album)
    ensures Inherited(Formatted(a)) == Inherited(a)
    ensures Formatted(Inherited(a)) == Formatted(a)
  {
    FormatKeepsView(a);
    InheritDependsOnViewOnly(Formatted(a), a);
    InheritKeepsView(a);
    FormatDependsOnViewOnly(Inherited(a), a);
  }

  /** An album held in a mutable binding, as the test holds the one it formats. */
  class AlbumBinding {
    var album: Album

    constructor(a: Album)
      ensures album == a
    {
      album := a;
    }

    /** `album.format()`: each disc in turn is compacted against the album header, in place. */
    method Format()
      modifies this
      ensures album == Formatted(old(album))
    {
      ghost var a := album;
      for i := 0 to |album.discs|
        invariant album == a.(discs := album.discs)
        invariant |album.discs| == |a.discs|
        invariant forall k :: 0 <= k < i ==> album.discs[k] == FormatDisc(a, a.discs[k])
        invariant forall k :: i <= k < |a.discs| ==> album.discs[k] == a.discs[k]
      {
        album := album.(discs := album.discs[i := FormatDisc(album, album.discs[i])]);
      }
    }
  }

  // ---------------------------------------------------------------------
  // to_string: the document text, line by line, with keys in a fixed order.
  // ---------------------------------------------------------------------

  function Quoted(s: string): string { "\"" + s + "\"" }

  function Entry(key: string, value: string): string { key + " = " + value }

  /** The line for an optional string field: present only when the field is. */
  function OptEntry(key: string, v: Option<string>): seq<string> {
    if v.Some? then [Entry(key, Quoted(v.value))] else []
  }

  function OptTypeName(t: Option<TrackType>): Option<string> {
    if t.Some? then Some(TypeName(t.value)) else None
  }

  function HeaderLines(a: Album): seq<string> {
    ["[album]", Entry("title", Quoted(a.title)), Entry("artist", Quoted(a.artist)),
     Entry("date", a.releaseDate), Entry("type", Quoted(TypeName(a.albumType))),
     Entry("catalog", Quoted(a.catalog))]
  }

  function TrackLines(t: Track): seq<string> {
    ["", "[[discs.tracks]]", Entry("title", Quoted(t.title))]
    + OptEntry("artist", t.artist) + OptEntry("type", OptTypeName(t.trackType))
  }

  function TracksLines(ts: seq<Track>): seq<string> {
    if ts == [] then [] else TrackLines(ts[0]) + TracksLines(ts[1..])
  }

  function DiscLines(d: Disc): seq<string> {
    ["", "[[discs]]", Entry("catalog", Quoted(d.catalog))]
    + OptEntry("title", d.title) + OptEntry("artist", d.artist)
    + OptEntry("type", OptTypeName(d.discType)) + TracksLines(d.tracks)
  }

  function DiscsLines(ds: seq<Disc>): seq<string> {
    if ds == [] then [] else DiscLines(ds[0]) + DiscsLines(ds[1..])
  }

  function DocumentLines(a: Album): seq<string> {
    HeaderLines(a) + DiscsLines(a.discs)
  }

  /** Every line followed by a line break. */
  function Unlines(ls: seq<string>): string {
    if ls == [] then "" else ls[0] + "\n" + Unlines(ls[1..])
  }

  /** `album.to_string()`. Lyrics are never written. */
  function ToText(a: Album): string {
    Unlines(DocumentLines(a))
  }

  function WithoutLyrics(a: Album): Album {
    a.(discs := seq(|a.discs|, i requires 0 <= i < |a.discs| =>
         a.discs[i].(tracks := seq(|a.discs[i].tracks|, j requires 0 <= j < |a.discs[i].tracks| =>
                                     a.discs[i].tracks[j].(lyric := None)))))
  }

  lemma {:induction false} TracksLinesIgnoreLyrics(ts: seq<Track>, us: seq<Track>)
    requires |ts| == |us|
    requires forall j :: 0 <= j < |ts| ==> ts[j].(lyric := None) == us[j].(lyric := None)
    ensures TracksLines(ts) == TracksLines(us)
  {
    if ts != [] {
      assert TrackLines(ts[0]) == TrackLines(us[0]) by {
        assert ts[0].(lyric := None) == us[0].(lyric := None);
      }
      TracksLinesIgnoreLyrics(ts[1..], us[1..]);
    }
  }

  lemma {:induction false} DiscsLinesIgnoreLyrics(ds: seq<Disc>, es: seq<Disc>)
    requires |ds| == |es|
    requires forall i :: 0 <= i < |ds| ==>
      ds[i].(tracks := []) == es[i].(tracks := []) && |ds[i].tracks| == |es[i].tracks|
      && forall j :: 0 <= j < |ds[i].tracks| ==> ds[i].tracks[j].(lyric := None) == es[i].tracks[j].(lyric := None)
    ensures DiscsLines(ds) == DiscsLines(es)
  {
    if ds != [] {
      assert ds[0].(tracks := []) == es[0].(tracks := []);
      TracksLinesIgnoreLyrics(ds[0].tracks, es[0].tracks);
      DiscsLinesIgnoreLyrics(ds[1..], es[1..]);
    }
  }

  /** The text does not depend on lyrics: they are dropped from the output. */
  lemma ToTextIgnoresLyrics(a: Album)
    ensures ToText(a) == ToText(WithoutLyrics(a))
  {
    DiscsLinesIgnoreLyrics(a.discs, WithoutLyrics(a).discs);
  }

  // ---------------------------------------------------------------------
  // The document of the repository's album tests.
  // ---------------------------------------------------------------------

  const SampleDocument: Album :=
    Album("夏凪ぎ/宝物になった日", "やなぎなぎ", "2020-12-16", Normal, "KSLA-0178", [
      Disc("KSLA-0178", None, None, None, [
        Track("夏凪ぎ", Some("やなぎなぎ"), None, Some(Lyric("[KSLA-0178] 夏凪ぎ.txt", None))),
        Track("宝物になった日", None, None, Some(Lyric("[KSLA-0178] 宝物になった日.lrc", None))),
        Track("夏凪ぎ(Episode 9 Ver.)", None, None, Some(Lyric("[KSLA-0178] 夏凪ぎ.lrc", Some(100)))),
        Track("宝物になった日(Episode 5 Ver.)", None, None, Some(Lyric("[KSLA-0178] 宝物になった日.lrc", Some(100)))),
        Track("夏凪ぎ(Instrumental)", Some("麻枝准"), Some(Instrumental), None),
        Track("宝物になった日(Instrumental)", Some("麻枝准"), Some(Instrumental), None)
      ])
    ])

  /** The accessors of the loaded sample document return what the deserialization test expects. */
  lemma SampleAccessors()
    ensures var a := Inherited(SampleDocument);
      && a.title == "夏凪ぎ/宝物になった日" && a.artist == "やなぎなぎ"
      && a.releaseDate == "2020-12-16" && a.albumType == Normal && a.catalog == "KSLA-0178"
      && |a.discs| == 1 && a.discs[0].catalog == "KSLA-0178" && |a.discs[0].tracks| == 6
      && forall j :: 0 <= j < 6 ==>
           var t := a.discs[0].tracks[j];
           && TrackArtist(a, a.discs[0], t) == (if j < 4 then "やなぎなぎ" else "麻枝准")
           && TrackKind(a, a.discs[0], t) == (if j < 4 then Normal else Instrumental)
  {
  }

  /** The sample document once loaded: every disc and track field explicit. */
  const SampleLoadedAlbum: Album :=
    Album("夏凪ぎ/宝物になった日", "やなぎなぎ", "2020-12-16", Normal, "KSLA-0178", [
      Disc("KSLA-0178", Some("夏凪ぎ/宝物になった日"), Some("やなぎなぎ"), Some(Normal), [
        Track("夏凪ぎ", Some("やなぎなぎ"), Some(Normal), Some(Lyric("[KSLA-0178] 夏凪ぎ.txt", None))),
        Track("宝物になった日", Some("やなぎなぎ"), Some(Normal), Some(Lyric("[KSLA-0178] 宝物になった日.lrc", None))),
        Track("夏凪ぎ(Episode 9 Ver.)", Some("やなぎなぎ"), Some(Normal), Some(Lyric("[KSLA-0178] 夏凪ぎ.lrc", Some(100)))),
        Track("宝物になった日(Episode 5 Ver.)", Some("やなぎなぎ"), Some(Normal), Some(Lyric("[KSLA-0178] 宝物になった日.lrc", Some(100)))),
        Track("夏凪ぎ(Instrumental)", Some("麻枝准"), Some(Instrumental), None),
        Track("宝物になった日(Instrumental)", Some("麻枝准"), Some(Instrumental), None)
      ])
    ])

  lemma SampleLoaded()
    ensures Inherited(SampleDocument) == SampleLoadedAlbum
  {
    var d := SampleDocument.discs[0];
    var e := Inherited(SampleDocument).discs[0];
    var x := SampleLoadedAlbum.discs[0];
    forall j | 0 <= j < 6 ensures e.tracks[j] == x.tracks[j] {
      assert e.tracks[j] == InheritTrack(SampleDocument, d, d.tracks[j]);
    }
    assert e.tracks == x.tracks;
    assert e == x;
  }

  /** The sample document after format(): only the instrumental tracks keep an artist and a type. */
  const SampleFormattedAlbum: Album :=
    Album("夏凪ぎ/宝物になった日", "やなぎなぎ", "2020-12-16", Normal, "KSLA-0178", [
      Disc("KSLA-0178", None, None, None, [
        Track("夏凪ぎ", None, None, Some(Lyric("[KSLA-0178] 夏凪ぎ.txt", None))),
        Track("宝物になった日", None, None, Some(Lyric("[KSLA-0178] 宝物になった日.lrc", None))),
        Track("夏凪ぎ(Episode 9 Ver.)", None, None, Some(Lyric("[KSLA-0178] 夏凪ぎ.lrc", Some(100)))),
        Track("宝物になった日(Episode 5 Ver.)", None, None, Some(Lyric("[KSLA-0178] 宝物になった日.lrc", Some(100)))),
        Track("夏凪ぎ(Instrumental)", Some("麻枝准"), Some(Instrumental), None),
        Track("宝物になった日(Instrumental)", Some("麻枝准"), Some(Instrumental), None)
      ])
    ])

  lemma SampleFormatted()
    ensures Formatted(SampleLoadedAlbum) == SampleFormattedAlbum
  {
    var d := SampleLoadedAlbum.discs[0];
    var f := Formatted(SampleLoadedAlbum).discs[0];
    var x := SampleFormattedAlbum.discs[0];
    forall j | 0 <= j < 6 ensures f.tracks[j] == x.tracks[j] {
      assert f.tracks[j] == FormatTrack(SampleLoadedAlbum, d, d.tracks[j]);
    }
    assert f.tracks == x.tracks;
    assert f == x;
  }

  /** `TracksLines` of six tracks, one block each. */
  lemma TracksLinesOfSix(ts: seq<Track>)
    requires |ts| == 6
    ensures TracksLines(ts) == TrackLines(ts[0]) + (TrackLines(ts[1]) + (TrackLines(ts[2])
                             + (TrackLines(ts[3]) + (TrackLines(ts[4]) + TrackLines(ts[5])))))
  {
    assert ts[5..][1..] == [];
    assert TracksLines(ts[5..]) == TrackLines(ts[5]);
    assert ts[4..][1..] == ts[5..];
    assert TracksLines(ts[4..]) == TrackLines(ts[4]) + TracksLines(ts[5..]);
    assert ts[3..][1..] == ts[4..];
    assert TracksLines(ts[3..]) == TrackLines(ts[3]) + TracksLines(ts[4..]);
    assert ts[2..][1..] == ts[3..];
    assert TracksLines(ts[2..]) == TrackLines(ts[2]) + TracksLines(ts[3..]);
    assert ts[1..][1..] == ts[2..];
    assert TracksLines(ts[1..]) == TrackLines(ts[1]) + TracksLines(ts[2..]);
    assert ts[0..] == ts && ts[1..] == ts[1..];
    assert TracksLines(ts[0..]) == TrackLines(ts[0]) + TracksLines(ts[1..]);
  }

  /** The track blocks of the loaded sample document. */
  lemma SampleLoadedTracks()
    ensures TracksLines(SampleLoadedAlbum.discs[0].tracks) ==
      ["", "[[discs.tracks]]", Entry("title", Quoted("夏凪ぎ")), Entry("artist", Quoted("やなぎなぎ")), Entry("type", Quoted("normal"))]
      + (["", "[[discs.tracks]]", Entry("title", Quoted("宝物になった日")), Entry("artist", Quoted("やなぎなぎ")), Entry("type", Quoted("normal"))]
      + (["", "[[discs.tracks]]", Entry("title", Quoted("夏凪ぎ(Episode 9 Ver.)")), Entry("artist", Quoted("やなぎなぎ")), Entry("type", Quoted("normal"))]
      + (["", "[[discs.tracks]]", Entry("title", Quoted("宝物になった日(Episode 5 Ver.)")), Entry("artist", Quoted("やなぎなぎ")), Entry("type", Quoted("normal"))]
      + (["", "[[discs.tracks]]", Entry("title", Quoted("夏凪ぎ(Instrumental)")), Entry("artist", Quoted("麻枝准")), Entry("type", Quoted("instrumental"))]
      + ["", "[[discs.tracks]]", Entry("title", Quoted("宝物になった日(Instrumental)")), Entry("artist", Quoted("麻枝准")), Entry("type", Quoted("instrumental"))]))))
  {
    var ts := SampleLoadedAlbum.discs[0].tracks;
    assert TrackLines(ts[0]) == ["", "[[discs.tracks]]", Entry("title", Quoted("夏凪ぎ")), Entry("artist", Quoted("やなぎなぎ")), Entry("type", Quoted("normal"))];
    assert TrackLines(ts[1]) == ["", "[[discs.tracks]]", Entry("title", Quoted("宝物になった日")), Entry("artist", Quoted("やなぎなぎ")), Entry("type", Quoted("normal"))];
    assert TrackLines(ts[2]) == ["", "[[discs.tracks]]", Entry("title", Quoted("夏凪ぎ(Episode 9 Ver.)")), Entry("artist", Quoted("やなぎなぎ")), Entry("type", Quoted("normal"))];
    assert TrackLines(ts[3]) == ["", "[[discs.tracks]]", Entry("title", Quoted("宝物になった日(Episode 5 Ver.)")), Entry("artist", Quoted("やなぎなぎ")), Entry("type", Quoted("normal"))];
    assert TrackLines(ts[4]) == ["", "[[discs.tracks]]", Entry("title", Quoted("夏凪ぎ(Instrumental)")), Entry("artist", Quoted("麻枝准")), Entry("type", Quoted("instrumental"))];
    assert TrackLines(ts[5]) == ["", "[[discs.tracks]]", Entry("title", Quoted("宝物になった日(Instrumental)")), Entry("artist", Quoted("麻枝准")), Entry("type", Quoted("instrumental"))];
    TracksLinesOfSix(ts);
  }

  /** The text of the loaded sample document, as the serialization test expects. */
  lemma SampleText()
    ensures ToText(Inherited(SampleDocument)) == Unlines(
      ["[album]", Entry("title", Quoted("夏凪ぎ/宝物になった日")), Entry("artist", Quoted("やなぎなぎ")), Entry("date", "2020-12-16"), Entry("type", Quoted("normal")), Entry("catalog", Quoted("KSLA-0178"))]
      + (["", "[[discs]]", Entry("catalog", Quoted("KSLA-0178")), Entry("title", Quoted("夏凪ぎ/宝物になった日")), Entry("artist", Quoted("やなぎなぎ")), Entry("type", Quoted("normal"))]
      + (["", "[[discs.tracks]]", Entry("title", Quoted("夏凪ぎ")), Entry("artist", Quoted("やなぎなぎ")), Entry("type", Quoted("normal"))]
      + (["", "[[discs.tracks]]", Entry("title", Quoted("宝物になった日")), Entry("artist", Quoted("やなぎなぎ")), Entry("type", Quoted("normal"))]
      + (["", "[[discs.tracks]]", Entry("title", Quoted("夏凪ぎ(Episode 9 Ver.)")), Entry("artist", Quoted("やなぎなぎ")), Entry("type", Quoted("normal"))]
      + (["", "[[discs.tracks]]", Entry("title", Quoted("宝物になった日(Episode 5 Ver.)")), Entry("artist", Quoted("やなぎなぎ")), Entry("type", Quoted("normal"))]
      + (["", "[[discs.tracks]]", Entry("title", Quoted("夏凪ぎ(Instrumental)")), Entry("artist", Quoted("麻枝准")), Entry("type", Quoted("instrumental"))]
      + (["", "[[discs.tracks]]", Entry("title", Quoted("宝物になった日(Instrumental)")), Entry("artist", Quoted("麻枝准")), Entry("type", Quoted("instrumental"))]))))))))
  {
    SampleLoaded();
    SampleLoadedTracks();
    SampleLoadedDisc();
    var a := SampleLoadedAlbum;
    assert HeaderLines(a) == ["[album]", Entry("title", Quoted("夏凪ぎ/宝物になった日")), Entry("artist", Quoted("やなぎなぎ")), Entry("date", "2020-12-16"), Entry("type", Quoted("normal")), Entry("catalog", Quoted("KSLA-0178"))];
  }

  /** The loaded sample disc writes every field before its tracks. */
  lemma SampleLoadedDisc()
    ensures var d := SampleLoadedAlbum.discs[0];
            DiscsLines(SampleLoadedAlbum.discs)
              == ["", "[[discs]]", Entry("catalog", Quoted("KSLA-0178")), Entry("title", Quoted("夏凪ぎ/宝物になった日")), Entry("artist", Quoted("やなぎなぎ")), Entry("type", Quoted("normal"))] + TracksLines(d.tracks)
  {
    var a := SampleLoadedAlbum;
    var d := a.discs[0];
    assert DiscLines(d) == ["", "[[discs]]", Entry("catalog", Quoted("KSLA-0178")), Entry("title", Quoted("夏凪ぎ/宝物になった日")), Entry("artist", Quoted("やなぎなぎ")), Entry("type", Quoted("normal"))] + TracksLines(d.tracks);
    assert DiscsLines(a.discs) == DiscLines(d);
  }

  /** The track blocks of the sample document after format(). */
  lemma SampleFormattedTracks()
    ensures TracksLines(SampleFormattedAlbum.discs[0].tracks) ==
      ["", "[[discs.tracks]]", Entry("title", Quoted("夏凪ぎ"))]
      + (["", "[[discs.tracks]]", Entry("title", Quoted("宝物になった日"))]
      + (["", "[[discs.tracks]]", Entry("title", Quoted("夏凪ぎ(Episode 9 Ver.)"))]
      + (["", "[[discs.tracks]]", Entry("title", Quoted("宝物になった日(Episode 5 Ver.)"))]
      + (["", "[[discs.tracks]]", Entry("title", Quoted("夏凪ぎ(Instrumental)")), Entry("artist", Quoted("麻枝准")), Entry("type", Quoted("instrumental"))]
      + ["", "[[discs.tracks]]", Entry("title", Quoted("宝物になった日(Instrumental)")), Entry("artist", Quoted("麻枝准")), Entry("type", Quoted("instrumental"))]))))
  {
    var ts := SampleFormattedAlbum.discs[0].tracks;
    assert TrackLines(ts[0]) == ["", "[[discs.tracks]]", Entry("title", Quoted("夏凪ぎ"))];
    assert TrackLines(ts[1]) == ["", "[[discs.tracks]]", Entry("title", Quoted("宝物になった日"))];
    assert TrackLines(ts[2]) == ["", "[[discs.tracks]]", Entry("title", Quoted("夏凪ぎ(Episode 9 Ver.)"))];
    assert TrackLines(ts[3]) == ["", "[[discs.tracks]]", Entry("title", Quoted("宝物になった日(Episode 5 Ver.)"))];
    assert TrackLines(ts[4]) == ["", "[[discs.tracks]]", Entry("title", Quoted("夏凪ぎ(Instrumental)")), Entry("artist", Quoted("麻枝准")), Entry("type", Quoted("instrumental"))];
    assert TrackLines(ts[5]) == ["", "[[discs.tracks]]", Entry("title", Quoted("宝物になった日(Instrumental)")), Entry("artist", Quoted("麻枝准")), Entry("type", Quoted("instrumental"))];
    TracksLinesOfSix(ts);
  }

  /** The text of the sample document after format(), as the serialization test expects. */
  lemma SampleFormattedText()
    ensures ToText(Formatted(Inherited(SampleDocument))) == Unlines(
      ["[album]", Entry("title", Quoted("夏凪ぎ/宝物になった日")), Entry("artist", Quoted("やなぎなぎ")), Entry("date", "2020-12-16"), Entry("type", Quoted("normal")), Entry("catalog", Quoted("KSLA-0178"))]
      + (["", "[[discs]]", Entry("catalog", Quoted("KSLA-0178"))]
      + (["", "[[discs.tracks]]", Entry("title", Quoted("夏凪ぎ"))]
      + (["", "[[discs.tracks]]", Entry("title", Quoted("宝物になった日"))]
      + (["", "[[discs.tracks]]", Entry("title", Quoted("夏凪ぎ(Episode 9 Ver.)"))]
      + (["", "[[discs.tracks]]", Entry("title", Quoted("宝物になった日(Episode 5 Ver.)"))]
      + (["", "[[discs.tracks]]", Entry("title", Quoted("夏凪ぎ(Instrumental)")), Entry("artist", Quoted("麻枝准")), Entry("type", Quoted("instrumental"))]
      + (["", "[[discs.tracks]]", Entry("title", Quoted("宝物になった日(Instrumental)")), Entry("artist", Quoted("麻枝准")), Entry("type", Quoted("instrumental"))]))))))))
  {
    SampleLoaded();
    SampleFormatted();
    SampleFormattedTracks();
    SampleFormattedDisc();
    var a := SampleFormattedAlbum;
    assert HeaderLines(a) == ["[album]", Entry("title", Quoted("夏凪ぎ/宝物になった日")), Entry("artist", Quoted("やなぎなぎ")), Entry("date", "2020-12-16"), Entry("type", Quoted("normal")), Entry("catalog", Quoted("KSLA-0178"))];
  }

  /** After format() the sample disc keeps only its catalog line before the tracks. */
  lemma SampleFormattedDisc()
    ensures var d := SampleFormattedAlbum.discs[0];
            DiscsLines(SampleFormattedAlbum.discs)
              == ["", "[[discs]]", Entry("catalog", Quoted("KSLA-0178"))] + TracksLines(d.tracks)
  {
    var a := SampleFormattedAlbum;
    var d := a.discs[0];
    assert DiscLines(d) == ["", "[[discs]]", Entry("catalog", Quoted("KSLA-0178"))] + TracksLines(d.tracks);
    assert DiscsLines(a.discs) == DiscLines(d);
  }
}
