/**
 * The playback controller, as a specification on values: what one key press does to the
 * button table and to the three external collaborators, each seen as the log of the
 * commands it received -- the shared audio sink, the panel, and the notification broker.
 */
module Controller {
  import opened Wrappers
  import opened Paths
  import opened Config
  import opened Images
  import opened Table

  newtype byte = b: int | 0 <= b < 256

  /** What is handed to the shared audio sink. */
  datatype Source =
    | Single(file: Path)          // one decoded sound file
    | Concat(files: seq<Path>)    // the decoded files of a playlist, played one after another
    | Forever(inner: Source)      // `inner` repeated without end

  datatype SinkCommand = Stop | Append(source: Source)

  /** An image written to one key of the panel. */
  datatype DeckWrite = DeckWrite(key: nat, frame: Frame)

  /** A publish call to the broker (whether the client accepted it), or the final disconnect. */
  datatype BrokerEvent = Published(topic: string, payload: string, accepted: bool) | Disconnected

  /** Fixed settings: whether the play icon is shown, and whether a broker client exists. */
  datatype Settings = Settings(showPlayIcon: bool, hasBroker: bool)

  /** What the outside world answers during one press: which files decode, and whether the panel write and the publish succeed. */
  datatype Env = Env(decodable: set<Path>, writeOk: bool, publishOk: bool)

  datatype PressError = Undecodable(path: Path) | WriteFailed(key: nat)

  datatype Outcome = Handled | Failed(error: PressError)

  /** The button table and everything the collaborators have been told so far. */
  datatype World = World(table: map<nat, Button>, sink: seq<SinkCommand>, writes: seq<DeckWrite>, broker: seq<BrokerEvent>)

  datatype Step = Step(world: World, outcome: Outcome)

  /** `pressed_idx`: the index of the first key whose state byte is 1, if any. */
  function PressedIdx(states: seq<byte>): (r: Option<nat>)
    ensures r.Some? ==> r.value < |states| && states[r.value] == 1
    ensures r.Some? ==> forall j :: 0 <= j < r.value ==> states[j] != 1
    ensures r.None? <==> forall j :: 0 <= j < |states| ==> states[j] != 1
  {
    if states == [] then None
    else if states[0] == 1 then Some(0)
    else
      match PressedIdx(states[1..])
      case None => None
      case Some(i) => Some(i + 1)
  }

  /** The first file of `files` that does not decode, if any (decoding stops there). */
  function FirstUndecodable(files: seq<Path>, decodable: set<Path>): (r: Option<Path>)
    ensures r.None? <==> forall i :: 0 <= i < |files| ==> files[i] in decodable
    ensures r.Some? ==> exists i :: 0 <= i < |files| && files[i] == r.value && r.value !in decodable
                                    && forall j :: 0 <= j < i ==> files[j] in decodable
  {
    if files == [] then None
    else if files[0] !in decodable then Some(files[0])
    else
      var r := FirstUndecodable(files[1..], decodable);
      assert forall i :: 1 <= i < |files| ==> files[1..][i - 1] == files[i];
      r
  }

  /** A source, looped forever when the button repeats. */
  function Wrap(source: Source, repeat: bool): Source {
    if repeat then Forever(source) else source
  }

  /** The frame written when a key stops: base image with the play icon, bare base image, or the play icon alone. */
  function StoppedFrame(b: Button, showPlayIcon: bool): (r: Frame)
    ensures r.IconOnly? <==> b.image.None?
    ensures !r.IconOnly? ==> r.base == b.image.value
    ensures !r.Bare? ==> r.icon == PlayIcon
    ensures r.Bare? <==> b.image.Some? && !showPlayIcon
  {
    match b.image
    case Some(img) => if showPlayIcon then Overlaid(img, PlayIcon) else Bare(img)
    case None => IconOnly(PlayIcon)
  }

  /** The frame written when a key starts: base image with the stop icon, or the stop icon alone. */
  function PlayingFrame(b: Button): (r: Frame)
    ensures !r.Bare? && r.icon == StopIcon
    ensures r.IconOnly? <==> b.image.None?
    ensures r.Overlaid? ==> r.base == b.image.value
  {
    match b.image
    case Some(img) => Overlaid(img, StopIcon)
    case None => IconOnly(StopIcon)
  }

  /** Publishes the button's payload to its topic when a broker client exists and both are set. */
  function Notify(w: World, b: Button, s: Settings, publishOk: bool): (r: World)
    ensures r.(broker := w.broker) == w
    ensures w.broker <= r.broker && |r.broker| <= |w.broker| + 1
    ensures |r.broker| == |w.broker| + 1 <==> s.hasBroker && b.config.topic.Some? && b.config.payload.Some?
    ensures |r.broker| == |w.broker| + 1 ==> r.broker[|w.broker|] == Published(b.config.topic.value, b.config.payload.value, publishOk)
  {
    if s.hasBroker && b.config.topic.Some? && b.config.payload.Some? then
      w.(broker := w.broker + [Published(b.config.topic.value, b.config.payload.value, publishOk)])
    else w
  }

  /** Writes `frame` to key `idx`; a failed write ends the press with an error. */
  function WriteFrame(w: World, idx: nat, frame: Frame, env: Env): Step {
    if env.writeOk then Step(w.(writes := w.writes + [DeckWrite(idx, frame)]), Handled)
    else Step(w, Failed(WriteFailed(idx)))
  }

  /** Stops the sink, clears the flag of key `idx`, and shows its stopped frame. */
  function StopPlaying(w: World, idx: nat, s: Settings, env: Env): (r: Step)
    requires idx in w.table
    ensures r.world.sink == w.sink + [Stop] && r.world.broker == w.broker
    ensures r.world.table == w.table[idx := w.table[idx].(playing := false)]
    ensures r.outcome == Handled <==> env.writeOk
    ensures r.outcome.Failed? ==> r.outcome == Failed(WriteFailed(idx)) && r.world.writes == w.writes
  {
    var b := w.table[idx];
    var stopped := w.(sink := w.sink + [Stop], table := w.table[idx := b.(playing := false)]);
    WriteFrame(stopped, idx, StoppedFrame(b, s.showPlayIcon), env)
  }

  /** Stops the sink, hands it `source` (looped when the key repeats), marks key `idx` playing and shows its playing frame. */
  function StartPlaying(w: World, idx: nat, source: Source, env: Env): (r: Step)
    requires idx in w.table
    ensures |r.world.sink| == |w.sink| + 2 && w.sink <= r.world.sink
    ensures r.world.sink[|w.sink|] == Stop && r.world.sink[|w.sink| + 1] == Append(Wrap(source, w.table[idx].config.repeat))
    ensures r.world.table == w.table[idx := w.table[idx].(playing := true)] && r.world.broker == w.broker
    ensures r.outcome == Handled <==> env.writeOk
    ensures r.outcome.Failed? ==> r.outcome == Failed(WriteFailed(idx)) && r.world.writes == w.writes
  {
    var b := w.table[idx];
    var started := w.(sink := w.sink + [Stop, Append(Wrap(source, b.config.repeat))],
                      table := w.table[idx := b.(playing := true)]);
    WriteFrame(started, idx, PlayingFrame(b), env)
  }

  /**
   * The playback part of a press of key `idx`: a playing key stops; an idle key starts its
   * playlist, else its sound, once every file decodes; an idle key with neither does nothing.
   */
  function Toggle(w: World, idx: nat, s: Settings, env: Env): (r: Step)
    requires idx in w.table
    ensures r.world.broker == w.broker
    ensures w.sink <= r.world.sink && w.writes <= r.world.writes
    ensures r.world.table.Keys == w.table.Keys
    ensures forall k :: k in w.table && k != idx ==> r.world.table[k] == w.table[k]
    ensures r.outcome.Failed? && r.outcome.error.Undecodable? ==> r.world == w && !w.table[idx].playing
  {
    var b := w.table[idx];
    if b.playing then StopPlaying(w, idx, s, env)
    else if b.playlistContents.Some? then
      match FirstUndecodable(b.playlistContents.value, env.decodable)
      case Some(p) => Step(w, Failed(Undecodable(p)))
      case None => StartPlaying(w, idx, Concat(b.playlistContents.value), env)
    else if b.config.sound.Some? then
      if b.config.sound.value !in env.decodable then Step(w, Failed(Undecodable(b.config.sound.value)))
      else StartPlaying(w, idx, Single(b.config.sound.value), env)
    else Step(w, Handled)
  }

  /** `handle_press`: the playback part for the first pressed key, then, unless it failed, the notification. */
  function Press(w: World, states: seq<byte>, s: Settings, env: Env): (r: Step)
    requires PressedIdx(states).Some? ==> PressedIdx(states).value in w.table
    ensures r.world.table.Keys == w.table.Keys
  {
    match PressedIdx(states)
    case None => Step(w, Handled)
    case Some(idx) =>
      var t := Toggle(w, idx, s, env);
      if t.outcome.Failed? then t
      else Step(Notify(t.world, w.table[idx], s, env.publishOk), Handled)
  }

  // ---------------------------------------------------------------------------------------
  // Properties of a press

  /** A state vector with no key at 1 changes nothing and tells no collaborator anything. */
  lemma NoPressNoEffect(w: World, states: seq<byte>, s: Settings, env: Env)
    requires forall j :: 0 <= j < |states| ==> states[j] != 1
    ensures Press(w, states, s, env) == Step(w, Handled)
  {
  }

  /** Only the pressed key's entry can change, and of it only the playing flag. */
  lemma {:induction false} PressFrame(w: World, states: seq<byte>, s: Settings, env: Env)
    requires PressedIdx(states).Some? ==> PressedIdx(states).value in w.table
    ensures var t := Press(w, states, s, env).world.table;
      forall k :: k in w.table ==>
        && t[k] == w.table[k].(playing := t[k].playing)
        && (PressedIdx(states) != Some(k) ==> t[k] == w.table[k])
  {
  }

  /**
   * Pressing a playing key stops the sink, clears its flag and shows the stopped frame --
   * whether or not it has a sound or playlist configured.
   */
  lemma PressWhilePlaying(w: World, states: seq<byte>, s: Settings, env: Env, idx: nat)
    requires PressedIdx(states) == Some(idx) && idx in w.table && w.table[idx].playing
    ensures var r := Press(w, states, s, env);
      && r.world.sink == w.sink + [Stop]
      && !r.world.table[idx].playing
      && (env.writeOk ==> r.world.writes == w.writes + [DeckWrite(idx, StoppedFrame(w.table[idx], s.showPlayIcon))] && r.outcome == Handled)
      && (!env.writeOk ==> r.world.writes == w.writes && r.outcome == Failed(WriteFailed(idx)))
  {
  }

  /** The stopped frame: base with play icon when shown, bare base otherwise, play icon alone without a base image. */
  lemma StoppedFrameCases(b: Button, showPlayIcon: bool)
    ensures b.image.Some? && showPlayIcon ==> StoppedFrame(b, showPlayIcon) == Overlaid(b.image.value, PlayIcon)
    ensures b.image.Some? && !showPlayIcon ==> StoppedFrame(b, showPlayIcon) == Bare(b.image.value)
    ensures b.image.None? ==> StoppedFrame(b, showPlayIcon) == IconOnly(PlayIcon)
  {
  }

  /** The playing frame always carries the stop icon, over the base image when there is one. */
  lemma PlayingFrameCases(b: Button)
    ensures b.image.Some? ==> PlayingFrame(b) == Overlaid(b.image.value, StopIcon)
    ensures b.image.None? ==> PlayingFrame(b) == IconOnly(StopIcon)
  {
  }

  /** The source an idle key starts: its playlist if it has one, else its sound; looped iff it repeats. */
  function SourceOf(b: Button): Option<Source> {
    if b.playlistContents.Some? then Some(Wrap(Concat(b.playlistContents.value), b.config.repeat))
    else if b.config.sound.Some? then Some(Wrap(Single(b.config.sound.value), b.config.repeat))
    else None
  }

  /** The files an idle key has to decode before it can start. */
  function FilesOf(b: Button): seq<Path> {
    if b.playlistContents.Some? then b.playlistContents.value
    else if b.config.sound.Some? then [b.config.sound.value]
    else []
  }

  /**
   * Pressing an idle key whose files all decode sends exactly one `Stop` and then one
   * `Append` of its source (playlist before sound, looped iff `repeat`), sets its flag and
   * shows the playing frame. Every other key keeps its flag, even one still marked playing.
   */
  lemma PressWhileIdle(w: World, states: seq<byte>, s: Settings, env: Env, idx: nat)
    requires PressedIdx(states) == Some(idx) && idx in w.table && !w.table[idx].playing
    requires SourceOf(w.table[idx]).Some?
    requires forall i :: 0 <= i < |FilesOf(w.table[idx])| ==> FilesOf(w.table[idx])[i] in env.decodable
    ensures var r := Press(w, states, s, env);
      && r.world.sink == w.sink + [Stop, Append(SourceOf(w.table[idx]).value)]
      && r.world.table == w.table[idx := w.table[idx].(playing := true)]
      && (env.writeOk ==> r.world.writes == w.writes + [DeckWrite(idx, PlayingFrame(w.table[idx]))] && r.outcome == Handled)
      && (!env.writeOk ==> r.world.writes == w.writes && r.outcome == Failed(WriteFailed(idx)))
  {
    var b := w.table[idx];
    if b.playlistContents.Some? {
      assert FilesOf(b) == b.playlistContents.value;
      assert FirstUndecodable(b.playlistContents.value, env.decodable).None?;
    } else {
      assert FilesOf(b)[0] == b.config.sound.value;
    }
  }

  /** A playlist takes precedence over a sound when a key has both. */
  lemma PlaylistBeatsSound(b: Button)
    requires b.playlistContents.Some? && b.config.sound.Some?
    ensures SourceOf(b) == Some(Wrap(Concat(b.playlistContents.value), b.config.repeat))
  {
  }

  /**
   * If any file of an idle key fails to decode, the press fails before any sink command:
   * the table, the panel and the broker are untouched.
   */
  lemma {:induction false} DecodeFailureChangesNothing(w: World, states: seq<byte>, s: Settings, env: Env, idx: nat, k: nat)
    requires PressedIdx(states) == Some(idx) && idx in w.table && !w.table[idx].playing
    requires SourceOf(w.table[idx]).Some?
    requires k < |FilesOf(w.table[idx])| && FilesOf(w.table[idx])[k] !in env.decodable
    ensures FirstUndecodable(FilesOf(w.table[idx]), env.decodable).Some?
    ensures Press(w, states, s, env) == Step(w, Failed(Undecodable(FirstUndecodable(FilesOf(w.table[idx]), env.decodable).value)))
  {
    var b := w.table[idx];
    if b.playlistContents.None? {
      assert FilesOf(b) == [b.config.sound.value];
    }
  }

  /** An idle key with neither playlist nor sound plays nothing and draws nothing. */
  lemma IdleWithoutSource(w: World, states: seq<byte>, s: Settings, env: Env, idx: nat)
    requires PressedIdx(states) == Some(idx) && idx in w.table && !w.table[idx].playing
    requires SourceOf(w.table[idx]).None?
    ensures var r := Press(w, states, s, env);
      && r.world.table == w.table && r.world.sink == w.sink && r.world.writes == w.writes && r.outcome == Handled
  {
  }

  /**
   * A notification is published, exactly once, iff a key was pressed, the press got past
   * the sound and panel steps, a broker client exists and the key has both a topic and a
   * payload; a rejected publish still leaves the press handled.
   */
  lemma NotifyOnPress(w: World, states: seq<byte>, s: Settings, env: Env)
    requires PressedIdx(states).Some? ==> PressedIdx(states).value in w.table
    ensures var r := Press(w, states, s, env);
      var conf := if PressedIdx(states).Some? then w.table[PressedIdx(states).value].config else EmptyConfig;
      && (r.world.broker == w.broker || r.world.broker == w.broker + [Published(conf.topic.value, conf.payload.value, env.publishOk)])
      && (r.world.broker != w.broker <==>
            r.outcome == Handled && PressedIdx(states).Some? && s.hasBroker && conf.topic.Some? && conf.payload.Some?)
  {
  }

  /** Whether the publish is accepted changes nothing but the broker log. */
  lemma PublishFailureIsSwallowed(w: World, states: seq<byte>, s: Settings, env: Env)
    requires PressedIdx(states).Some? ==> PressedIdx(states).value in w.table
    ensures var ok := Press(w, states, s, env.(publishOk := true));
      var rejected := Press(w, states, s, env.(publishOk := false));
      && ok.outcome == rejected.outcome
      && ok.world.(broker := w.broker) == rejected.world.(broker := w.broker)
  {
  }

  /** Every key flagged playing has something to play. */
  ghost predicate Coherent(table: map<nat, Button>) {
    forall k :: k in table && table[k].playing ==> SourceOf(table[k]).Some?
  }

  /** A press keeps the table's keys and its coherence. */
  lemma {:induction false} PressPreservesCoherence(w: World, states: seq<byte>, s: Settings, env: Env)
    requires PressedIdx(states).Some? ==> PressedIdx(states).value in w.table
    requires Coherent(w.table)
    ensures Press(w, states, s, env).world.table.Keys == w.table.Keys
    ensures Coherent(Press(w, states, s, env).world.table)
  {
    var t := Press(w, states, s, env).world.table;
    PressFrame(w, states, s, env);
    forall k | k in t && t[k].playing
      ensures SourceOf(t[k]).Some?
    {
      assert SourceOf(t[k]) == SourceOf(w.table[k]);
      if PressedIdx(states) == Some(k) && !w.table[k].playing && SourceOf(w.table[k]).None? {
        IdleWithoutSource(w, states, s, env, k);
      }
    }
  }

  /** A press only appends to the three logs, and what it tells the broker is publishes only. */
  lemma PressOnlyAppends(w: World, states: seq<byte>, s: Settings, env: Env)
    requires PressedIdx(states).Some? ==> PressedIdx(states).value in w.table
    ensures var r := Press(w, states, s, env).world;
      && w.sink <= r.sink && w.writes <= r.writes && w.broker <= r.broker
      && forall i :: |w.broker| <= i < |r.broker| ==> r.broker[i].Published?
  {
    NotifyOnPress(w, states, s, env);
    if PressedIdx(states).Some? {
      var idx := PressedIdx(states).value;
      var b := w.table[idx];
      if b.playing {
        PressWhilePlaying(w, states, s, env, idx);
      } else if SourceOf(b).Some? {
        if forall i :: 0 <= i < |FilesOf(b)| ==> FilesOf(b)[i] in env.decodable {
          PressWhileIdle(w, states, s, env, idx);
        } else {
          var k :| 0 <= k < |FilesOf(b)| && FilesOf(b)[k] !in env.decodable;
          DecodeFailureChangesNothing(w, states, s, env, idx, k);
        }
      } else {
        IdleWithoutSource(w, states, s, env, idx);
      }
    }
  }

  /**
   * The known inconsistency of the shared sink: starting key `b` while key `a` plays leaves
   * `a` flagged playing although the sink's last command now plays `b`'s source.
   */
  lemma SwitchingLeavesStaleFlag(w: World, states: seq<byte>, s: Settings, env: Env, a: nat, b: nat)
    requires a != b && a in w.table && b in w.table && w.table[a].playing
    requires PressedIdx(states) == Some(b) && !w.table[b].playing && SourceOf(w.table[b]).Some?
    requires forall i :: 0 <= i < |FilesOf(w.table[b])| ==> FilesOf(w.table[b])[i] in env.decodable
    ensures var r := Press(w, states, s, env).world;
      && r.table[a].playing && r.table[b].playing
      && r.sink[|r.sink| - 1] == Append(SourceOf(w.table[b]).value)
  {
    PressWhileIdle(w, states, s, env, b);
  }

  /**
   * Pressing an idle sound key twice, with its file decoding and the panel writes
   * succeeding, plays then stops it: the sink gets `Stop, Append, Stop`, the key shows the
   * playing frame then the stopped frame, and ends idle.
   */
  lemma PressTwiceToggles(w: World, states: seq<byte>, s: Settings, env: Env, idx: nat)
    requires PressedIdx(states) == Some(idx) && idx in w.table && !w.table[idx].playing
    requires w.table[idx].playlistContents.None? && w.table[idx].config.sound.Some?
    requires w.table[idx].config.sound.value in env.decodable && env.writeOk
    ensures var once := Press(w, states, s, env).world;
      var twice := Press(once, states, s, env).world;
      && once.table[idx].playing && !twice.table[idx].playing
      && twice.table == w.table
      && twice.sink == w.sink + [Stop, Append(Wrap(Single(w.table[idx].config.sound.value), w.table[idx].config.repeat)), Stop]
      && twice.writes == w.writes + [DeckWrite(idx, PlayingFrame(w.table[idx])), DeckWrite(idx, StoppedFrame(w.table[idx], s.showPlayIcon))]
  {
    var b := w.table[idx];
    PressWhileIdle(w, states, s, env, idx);
    var once := Press(w, states, s, env).world;
    assert once.table[idx] == b.(playing := true);
    PressWhilePlaying(once, states, s, env, idx);
    assert w.table[idx := b] == w.table;
  }
}
