/**
 * Playlist resolution, done once when the button table is built: every entry of an m3u
 * playlist must be a local path, which is taken relative to the playlist's own directory.
 * The result is all or nothing.
 */
module Playlist {
  import opened Wrappers
  import opened Paths

  /** An entry of an m3u playlist. */
  datatype Entry = PathEntry(path: Path) | UrlEntry(url: string)

  datatype PlaylistError =
    | Unreadable(playlist: Path)   // the playlist cannot be opened, or its entries cannot be read
    | NoParentDir                  // a path entry, but the playlist path has no parent directory
    | UrlNotSupported(url: string) // a remote entry

  /** Resolves one entry against the playlist's directory, if it has one. */
  function ResolveEntry(dir: Option<Path>, e: Entry): (r: Result<Path, PlaylistError>)
    ensures r.Ok? <==> e.PathEntry? && dir.Some?
    ensures e.UrlEntry? ==> r == Err(UrlNotSupported(e.url))
  {
    match e
    case PathEntry(p) => if dir.Some? then Ok(Join(dir.value, p)) else Err(NoParentDir)
    case UrlEntry(u) => Err(UrlNotSupported(u))
  }

  /**
   * Resolves the entries in order and collects them, stopping at the first entry that
   * fails: either every entry resolves, in order, or the first failure is the result.
   */
  function ResolveAll(dir: Option<Path>, entries: seq<Entry>): (r: Result<seq<Path>, PlaylistError>)
    ensures r.Ok? <==> forall i :: 0 <= i < |entries| ==> ResolveEntry(dir, entries[i]).Ok?
    ensures r.Ok? ==> |r.value| == |entries|
    ensures r.Ok? ==> forall i :: 0 <= i < |entries| ==> ResolveEntry(dir, entries[i]) == Ok(r.value[i])
    ensures r.Err? ==> exists i :: 0 <= i < |entries| && ResolveEntry(dir, entries[i]) == Err(r.error)
                                 && forall j :: 0 <= j < i ==> ResolveEntry(dir, entries[j]).Ok?
  {
    if entries == [] then Ok([])
    else
      match ResolveEntry(dir, entries[0])
      case Err(e) => Err(e)
      case Ok(p) =>
        match ResolveAll(dir, entries[1..])
        case Err(e) =>
          assert forall i :: 1 <= i < |entries| ==> entries[1..][i - 1] == entries[i];
          Err(e)
        case Ok(ps) =>
          assert forall i :: 1 <= i < |entries| ==> entries[1..][i - 1] == entries[i];
          Ok([p] + ps)
  }

  /**
   * `load_playlist`: reads the entries of the playlist file (`listings` holds the entries
   * of every playlist that can be opened and read) and resolves them against its directory.
   */
  function LoadPlaylist(playlist: Path, listings: map<Path, seq<Entry>>): (r: Result<seq<Path>, PlaylistError>)
    ensures r == Err(Unreadable(playlist)) <==> playlist !in listings
    ensures r.Ok? ==> |r.value| == |listings[playlist]|
  {
    if playlist !in listings then Err(Unreadable(playlist))
    else ResolveAll(Parent(playlist), listings[playlist])
  }

  /**
   * A playlist loads exactly when it can be read, all its entries are paths and, if there
   * is any entry, it has a parent directory; the files are then the entries, in order,
   * each joined onto that directory.
   */
  lemma LoadPlaylistSucceeds(playlist: Path, listings: map<Path, seq<Entry>>)
    ensures LoadPlaylist(playlist, listings).Ok? <==>
              && playlist in listings
              && (forall i :: 0 <= i < |listings[playlist]| ==> listings[playlist][i].PathEntry?)
              && (listings[playlist] != [] ==> playlist.parts != [])
    ensures LoadPlaylist(playlist, listings).Ok? ==>
              var entries, files := listings[playlist], LoadPlaylist(playlist, listings).value;
              && |files| == |entries|
              && forall i :: 0 <= i < |entries| ==> files[i] == Join(Parent(playlist).value, entries[i].path)
  {
    if playlist in listings {
      var entries := listings[playlist];
      if entries != [] && playlist.parts == [] {
        assert ResolveEntry(Parent(playlist), entries[0]).Err?;
      }
    }
  }

  /** A single remote entry anywhere in the playlist fails the whole load: no partial list. */
  lemma UrlEntryFailsLoad(playlist: Path, listings: map<Path, seq<Entry>>, k: nat)
    requires playlist in listings && k < |listings[playlist]| && listings[playlist][k].UrlEntry?
    ensures LoadPlaylist(playlist, listings).Err?
  {
    assert ResolveEntry(Parent(playlist), listings[playlist][k]).Err?;
  }
}
