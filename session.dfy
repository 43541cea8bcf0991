/**
 * The running program's state: the button table it updates in place and the three
 * collaborators it drives -- the shared audio sink, the panel and the broker -- each kept
 * as the log of the commands it received. Every method is proved against the value-level
 * specification in `Controller` and `Driver`.
 */
module Runtime {
  import opened Wrappers
  import opened Config
  import opened Images
  import opened Table
  import opened Controller
  import opened Driver

  class Session {
    var table: map<nat, Button>
    var sink: seq<SinkCommand>
    var writes: seq<DeckWrite>
    var broker: seq<BrokerEvent>
    const size: nat
    const settings: Settings

    /** The table has one entry per key `0 .. size - 1`, and only keys with something to play are flagged playing. */
    ghost predicate Valid()
      reads this
    {
      Covers(table, size) && Coherent(table)
    }

    function State(): World
      reads this
    {
      World(table, sink, writes, broker)
    }

    /** Takes over the table built at startup; nothing has been sent to any collaborator yet. */
    constructor (initial: map<nat, Button>, size: nat, settings: Settings)
      requires Covers(initial, size)
      requires forall k :: k in initial ==> !initial[k].playing
      ensures Valid()
      ensures State() == World(initial, [], [], [])
      ensures this.size == size && this.settings == settings
    {
      table := initial;
      sink, writes, broker := [], [], [];
      this.size := size;
      this.settings := settings;
    }

    /** `write_image`: one frame to one key; a failed write changes nothing on the panel's log. */
    method WriteImage(idx: nat, frame: Frame, ok: bool) returns (r: Outcome)
      modifies this`writes
      ensures writes == if ok then old(writes) + [DeckWrite(idx, frame)] else old(writes)
      ensures r == if ok then Handled else Failed(WriteFailed(idx))
    {
      if ok {
        writes := writes + [DeckWrite(idx, frame)];
        r := Handled;
      } else {
        r := Failed(WriteFailed(idx));
      }
    }

    /** `set_playing`: flags key `idx` playing, then shows the stop icon on it. */
    method SetPlaying(idx: nat, ok: bool) returns (r: Outcome)
      requires idx in table
      modifies this`table, this`writes
      ensures table == old(table)[idx := old(table)[idx].(playing := true)]
      ensures writes == if ok then old(writes) + [DeckWrite(idx, PlayingFrame(old(table)[idx]))] else old(writes)
      ensures r == if ok then Handled else Failed(WriteFailed(idx))
    {
      var button := table[idx];
      table := table[idx := button.(playing := true)];
      match button.image {
        case Some(img) => r := WriteImage(idx, Overlaid(img, StopIcon), ok);
        case None => r := WriteImage(idx, IconOnly(StopIcon), ok);
      }
    }

    /** The playback part of `handle_press` for key `idx`: stop it, or start its playlist or sound. */
    method ToggleKey(idx: nat, env: Env) returns (r: Outcome)
      requires idx in table
      modifies this`table, this`sink, this`writes
      ensures Step(State(), r) == Toggle(old(State()), idx, settings, env)
    {
      var button := table[idx];
      if button.playing {
        sink := sink + [Stop];
        table := table[idx := button.(playing := false)];
        match button.image {
          case Some(img) =>
            if settings.showPlayIcon {
              r := WriteImage(idx, Overlaid(img, PlayIcon), env.writeOk);
            } else {
              r := WriteImage(idx, Bare(img), env.writeOk);
            }
          case None => r := WriteImage(idx, IconOnly(PlayIcon), env.writeOk);
        }
      } else if button.playlistContents.Some? {
        var bad := FirstUndecodable(button.playlistContents.value, env.decodable);
        if bad.Some? {
          return Failed(Undecodable(bad.value));
        }
        var all := Concat(button.playlistContents.value);
        sink := sink + [Stop];
        if button.config.repeat {
          sink := sink + [Append(Forever(all))];
        } else {
          sink := sink + [Append(all)];
        }
        r := SetPlaying(idx, env.writeOk);
      } else if button.config.sound.Some? {
        var path := button.config.sound.value;
        if path !in env.decodable {
          return Failed(Undecodable(path));
        }
        sink := sink + [Stop];
        if button.config.repeat {
          sink := sink + [Append(Forever(Single(path)))];
        } else {
          sink := sink + [Append(Single(path))];
        }
        r := SetPlaying(idx, env.writeOk);
      } else {
        r := Handled;
      }
    }

    /** `handle_press`: toggles the first pressed key and, unless that failed, publishes its notification. */
    method HandlePress(pressed: seq<byte>, env: Env) returns (r: Outcome)
      requires Valid()
      requires PressedIdx(pressed).Some? ==> PressedIdx(pressed).value in table
      modifies this
      ensures Valid()
      ensures Step(State(), r) == Press(old(State()), pressed, settings, env)
    {
      PressPreservesCoherence(State(), pressed, settings, env);
      var found := PressedIdx(pressed);
      if found.None? {
        return Handled;
      }
      var idx := found.value;
      var button := table[idx];
      r := ToggleKey(idx, env);
      if r.Failed? {
        return;
      }
      if settings.hasBroker && button.config.topic.Some? && button.config.payload.Some? {
        broker := broker + [Published(button.config.topic.value, button.config.payload.value, env.publishOk)];
      }
      r := Handled;
    }

    /**
     * `display_buttons`: writes the startup frame of every key with a base image, in the
     * table's iteration order `order`, stopping at the first write that fails.
     */
    method DisplayButtons(order: seq<nat>, failing: set<nat>) returns (r: Outcome)
      requires forall k :: k in table <==> k in order
      requires forall i, j :: 0 <= i < j < |order| ==> order[i] != order[j]
      modifies this`writes
      ensures writes == old(writes) + Display(table, order, settings.showPlayIcon, failing).writes
      ensures r == Display(table, order, settings.showPlayIcon, failing).outcome
    {
      var show := settings.showPlayIcon;
      var i := 0;
      while i < |order|
        invariant 0 <= i <= |order|
        invariant old(writes) + Display(table, order, show, failing).writes == writes + Display(table, order[i..], show, failing).writes
        invariant Display(table, order, show, failing).outcome == Display(table, order[i..], show, failing).outcome
      {
        assert order[i..][1..] == order[i + 1..];
        var k := order[i];
        var button := table[k];
        if button.image.Some? {
          var img := button.image.value;
          var frame := if button.config.sound.Some? && show then Overlaid(img, PlayIcon) else Bare(img);
          if k in failing {
            return Failed(WriteFailed(k));
          }
          writes := writes + [DeckWrite(k, frame)];
        }
        i := i + 1;
      }
      return Handled;
    }

    /**
     * The polling loop of `main`: no data is normal, any other device error ends the loop
     * at once, a failed press is only logged, and once the shutdown flag is seen the broker
     * is disconnected and the sink stopped.
     */
    method Run(script: seq<Tick>) returns (r: RunOutcome)
      requires Valid()
      requires PressesFit(script, table.Keys)
      modifies this
      ensures Valid()
      ensures RunResult(State(), r) == RunScript(old(State()), script, settings)
    {
      var i := 0;
      while i < |script|
        invariant 0 <= i <= |script|
        invariant Valid()
        invariant PressesFit(script[i..], table.Keys)
        invariant RunScript(old(State()), script, settings) == RunScript(State(), script[i..], settings)
      {
        var tick := script[i];
        assert script[i..][0] == tick;
        assert forall j :: 1 <= j < |script[i..]| ==> script[i..][1..][j - 1] == script[i..][j];
        assert script[i..][1..] == script[i + 1..];
        match tick.poll {
          case DeviceError(code) =>
            return Fatal(code);
          case NoData =>
          case Pressed(states) =>
            var outcome := HandlePress(states, tick.env);
        }
        if tick.kill {
          if settings.hasBroker {
            broker := broker + [Disconnected];
          }
          sink := sink + [Stop];
          return Stopped;
        }
        i := i + 1;
      }
      return Polling;
    }
  }
}
