/**
 * The button table built at startup: one entry per key, keyed by the key's index, each
 * holding its configuration, its playback flag, its precomputed base image and its
 * resolved playlist.
 */
module Table {
  import opened Wrappers
  import opened Paths
  import opened Config
  import opened Images
  import opened Playlist

  datatype Button = Button(
    config: ButtonConfig,
    playing: bool,
    image: Option<Image>,
    playlistContents: Option<seq<Path>>)

  /** The inert key used for an empty slot. */
  const DefaultButton := Button(EmptyConfig, false, None, None)

  /** What the file system offers at startup: the image files that decode, and the entries of the readable playlists. */
  datatype Files = Files(images: set<Path>, playlists: map<Path, seq<Entry>>)

  datatype StartupError = BadImage(imageError: ImageError) | BadPlaylist(playlistError: PlaylistError)

  /** The playlist of a configuration, resolved, if it names one. */
  function PlaylistOf(conf: ButtonConfig, files: Files): Result<Option<seq<Path>>, PlaylistError> {
    match conf.playlist
    case None => Ok(None)
    case Some(p) =>
      match LoadPlaylist(p, files.playlists)
      case Ok(ps) => Ok(Some(ps))
      case Err(e) => Err(e)
  }

  /** The table entry of one slot: its image is prepared first, then its playlist is loaded. */
  function MakeButton(slot: Option<ButtonConfig>, width: nat, height: nat, files: Files): (r: Result<Button, StartupError>)
    ensures slot.None? ==> r == Ok(DefaultButton)
    ensures r.Err? ==> slot.Some?
    ensures r.Ok? ==> !r.value.playing
    ensures r.Ok? && slot.Some? ==> r.value.config == slot.value && (r.value.playlistContents.Some? <==> slot.value.playlist.Some?)
  {
    match slot
    case None => Ok(DefaultButton)
    case Some(conf) =>
      match BaseImage(conf, width, height, files.images)
      case Err(e) => Err(BadImage(e))
      case Ok(image) =>
        match PlaylistOf(conf, files)
        case Err(e) => Err(BadPlaylist(e))
        case Ok(contents) => Ok(Button(conf, false, image, contents))
  }

  /**
   * A configured slot keeps its configuration and gets its base image and resolved playlist;
   * an image error is reported before a playlist error; an empty slot is the inert key.
   */
  lemma MakeButtonCases(slot: Option<ButtonConfig>, width: nat, height: nat, files: Files)
    ensures slot.None? ==> MakeButton(slot, width, height, files) == Ok(DefaultButton)
    ensures slot.Some? ==>
              var conf, r := slot.value, MakeButton(slot, width, height, files);
              var img := BaseImage(conf, width, height, files.images);
              && (img.Err? ==> r == Err(BadImage(img.error)))
              && (img.Ok? && conf.playlist.Some? && LoadPlaylist(conf.playlist.value, files.playlists).Err? ==>
                    r == Err(BadPlaylist(LoadPlaylist(conf.playlist.value, files.playlists).error)))
              && (r.Ok? ==>
                    && r.value.config == conf && !r.value.playing && img == Ok(r.value.image)
                    && (conf.playlist.None? ==> r.value.playlistContents.None?)
                    && (conf.playlist.Some? ==>
                          Ok(r.value.playlistContents.value) == LoadPlaylist(conf.playlist.value, files.playlists)))
  {
  }

  /** The entries of all slots, in order, or the first slot's error. */
  function BuildButtons(slots: seq<Option<ButtonConfig>>, width: nat, height: nat, files: Files): (r: Result<seq<Button>, StartupError>)
    ensures r.Ok? <==> forall i :: 0 <= i < |slots| ==> MakeButton(slots[i], width, height, files).Ok?
    ensures r.Ok? ==> |r.value| == |slots|
    ensures r.Ok? ==> forall i :: 0 <= i < |slots| ==> MakeButton(slots[i], width, height, files) == Ok(r.value[i])
    ensures r.Err? ==> exists i :: 0 <= i < |slots| && MakeButton(slots[i], width, height, files) == Err(r.error)
                                 && forall j :: 0 <= j < i ==> MakeButton(slots[j], width, height, files).Ok?
  {
    if slots == [] then Ok([])
    else
      match MakeButton(slots[0], width, height, files)
      case Err(e) => Err(e)
      case Ok(b) =>
        match BuildButtons(slots[1..], width, height, files)
        case Err(e) =>
          assert forall i :: 1 <= i < |slots| ==> slots[1..][i - 1] == slots[i];
          Err(e)
        case Ok(bs) =>
          assert forall i :: 1 <= i < |slots| ==> slots[1..][i - 1] == slots[i];
          Ok([b] + bs)
  }

  /** The table covers exactly the keys `0 .. n - 1`. */
  ghost predicate Covers(table: map<nat, Button>, n: nat) {
    forall k: nat :: k in table <==> k < n
  }

  /**
   * `build_state`: the table keyed by slot index. Every entry starts idle; any slot whose
   * image or playlist fails makes the whole build fail with the first such error.
   */
  function BuildState(slots: seq<Option<ButtonConfig>>, width: nat, height: nat, files: Files): (r: Result<map<nat, Button>, StartupError>)
    ensures r.Ok? <==> forall i :: 0 <= i < |slots| ==> MakeButton(slots[i], width, height, files).Ok?
    ensures r.Ok? ==> Covers(r.value, |slots|)
    ensures r.Ok? ==> forall k :: k in r.value ==> !r.value[k].playing
    ensures r.Ok? ==> forall k :: k in r.value ==> MakeButton(slots[k], width, height, files) == Ok(r.value[k])
    ensures r.Err? ==> exists i :: 0 <= i < |slots| && MakeButton(slots[i], width, height, files) == Err(r.error)
                                 && forall j :: 0 <= j < i ==> MakeButton(slots[j], width, height, files).Ok?
  {
    match BuildButtons(slots, width, height, files)
    case Err(e) => Err(e)
    case Ok(bs) => Ok(map k: nat | k < |bs| :: bs[k])
  }

  /** An empty slot becomes the inert key: no configuration, idle, no image, no playlist. */
  lemma EmptySlotIsInert(slots: seq<Option<ButtonConfig>>, width: nat, height: nat, files: Files, k: nat)
    requires BuildState(slots, width, height, files).Ok?
    requires k < |slots| && slots[k].None?
    ensures BuildState(slots, width, height, files).value[k] == DefaultButton
  {
  }

  /** A single slot whose image or playlist cannot be loaded makes the whole build fail. */
  lemma OneBadSlotFailsAll(slots: seq<Option<ButtonConfig>>, width: nat, height: nat, files: Files, k: nat)
    requires k < |slots| && MakeButton(slots[k], width, height, files).Err?
    ensures BuildState(slots, width, height, files).Err?
  {
  }

  /**
   * At startup the table built from the configuration has one entry per key of the panel,
   * key `i * columns + c` built from slot `c` of row `i`.
   */
  lemma TableMatchesGrid(buttons: Buttons, device: Device, width: nat, height: nat, files: Files, i: nat, c: nat)
    requires BuildState(buttons.List(device), width, height, files).Ok?
    requires i < device.Rows() && c < device.Columns()
    ensures var table := BuildState(buttons.List(device), width, height, files).value;
      && Covers(table, device.Rows() * device.Columns())
      && i * device.Columns() + c in table
      && MakeButton(SlotOf(buttons.RowList()[i], c), width, height, files) == Ok(table[i * device.Columns() + c])
  {
    assert i * device.Columns() + c < device.Rows() * device.Columns() by {
      assert i * device.Columns() <= (device.Rows() - 1) * device.Columns();
    }
  }
}
