/**
 * What happens around the presses: the images written to the panel at startup, and the
 * polling loop with its error policy (no data is normal, any other device error ends the
 * loop, a failed press is only logged, the shutdown flag ends it in order).
 */
module Driver {
  import opened Wrappers
  import opened Config
  import opened Images
  import opened Table
  import opened Controller

  /**
   * The frame written to a key at startup: only keys with a base image are written, with
   * the play icon over it when the key has a `sound` and the icon option is on.
   */
  function StartupFrame(b: Button, showPlayIcon: bool): (r: Option<Frame>)
    ensures r.None? <==> b.image.None?
    ensures r.Some? ==> !r.value.IconOnly? && r.value.base == b.image.value
    ensures r.Some? && r.value.Overlaid? ==> r.value.icon == PlayIcon && b.config.sound.Some? && showPlayIcon
  {
    match b.image
    case None => None
    case Some(img) => Some(if b.config.sound.Some? && showPlayIcon then Overlaid(img, PlayIcon) else Bare(img))
  }

  /** The play icon is only drawn over keys with a sound; a key that only has a playlist starts out bare. */
  lemma StartupFrameCases(b: Button, showPlayIcon: bool)
    ensures b.image.None? <==> StartupFrame(b, showPlayIcon).None?
    ensures b.image.Some? && b.config.sound.Some? && showPlayIcon ==>
              StartupFrame(b, showPlayIcon) == Some(Overlaid(b.image.value, PlayIcon))
    ensures b.image.Some? && (b.config.sound.None? || !showPlayIcon) ==>
              StartupFrame(b, showPlayIcon) == Some(Bare(b.image.value))
  {
  }

  datatype Writes = Writes(writes: seq<DeckWrite>, outcome: Outcome)

  /**
   * `display_buttons`: visits the keys in the table's iteration order `order` and writes each
   * startup frame, stopping at the first write that fails (the keys in `failing`).
   */
  function Display(table: map<nat, Button>, order: seq<nat>, showPlayIcon: bool, failing: set<nat>): (r: Writes)
    requires forall i :: 0 <= i < |order| ==> order[i] in table
    ensures r.outcome.Failed? ==> r.outcome.error.WriteFailed? && r.outcome.error.key in failing
  {
    if order == [] then Writes([], Handled)
    else
      var k := order[0];
      var rest := Display(table, order[1..], showPlayIcon, failing);
      match StartupFrame(table[k], showPlayIcon)
      case None => rest
      case Some(f) => if k in failing then Writes([], Failed(WriteFailed(k))) else Writes([DeckWrite(k, f)] + rest.writes, rest.outcome)
  }

  /**
   * Every write goes to a key with a base image and carries its startup frame; display
   * fails exactly when a key with a base image cannot be written, and otherwise every key
   * with a base image has been written.
   */
  lemma {:induction false} DisplayWritesImages(table: map<nat, Button>, order: seq<nat>, showPlayIcon: bool, failing: set<nat>)
    requires forall i :: 0 <= i < |order| ==> order[i] in table
    ensures var d := Display(table, order, showPlayIcon, failing);
      && (forall j :: 0 <= j < |d.writes| ==>
            && d.writes[j].key in order && d.writes[j].key !in failing
            && StartupFrame(table[d.writes[j].key], showPlayIcon) == Some(d.writes[j].frame))
      && (d.outcome.Failed? <==> exists i :: 0 <= i < |order| && order[i] in failing && table[order[i]].image.Some?)
      && (d.outcome.Failed? ==> d.outcome.error.WriteFailed? && d.outcome.error.key in failing)
      && (d.outcome == Handled ==>
            forall i :: 0 <= i < |order| && table[order[i]].image.Some? ==> exists j :: 0 <= j < |d.writes| && d.writes[j].key == order[i])
  {
    if order != [] {
      var k := order[0];
      var tail := order[1..];
      assert forall i :: 1 <= i < |order| ==> order[i] == tail[i - 1];
      DisplayWritesImages(table, tail, showPlayIcon, failing);
      var d, rest := Display(table, order, showPlayIcon, failing), Display(table, tail, showPlayIcon, failing);
      if StartupFrame(table[k], showPlayIcon).Some? && k !in failing {
        assert d.writes == [DeckWrite(k, StartupFrame(table[k], showPlayIcon).value)] + rest.writes;
        forall i | 0 <= i < |order| && table[order[i]].image.Some? && d.outcome == Handled
          ensures exists j :: 0 <= j < |d.writes| && d.writes[j].key == order[i]
        {
          if i == 0 {
            assert d.writes[0].key == order[i];
          } else {
            var j :| 0 <= j < |rest.writes| && rest.writes[j].key == tail[i - 1];
            assert d.writes[j + 1].key == order[i];
          }
        }
      }
    }
  }

  /**
   * Over an iteration order that visits every key of the table, display fails exactly when
   * some key with a base image cannot be written, and otherwise every such key is written.
   */
  lemma DisplayCoversTable(table: map<nat, Button>, order: seq<nat>, showPlayIcon: bool, failing: set<nat>)
    requires forall k :: k in table <==> k in order
    ensures forall i :: 0 <= i < |order| ==> order[i] in table
    ensures var d := Display(table, order, showPlayIcon, failing);
      && (d.outcome.Failed? <==> exists k :: k in table && k in failing && table[k].image.Some?)
      && (d.outcome == Handled ==>
            forall k :: k in table && table[k].image.Some? ==> exists j :: 0 <= j < |d.writes| && d.writes[j].key == k)
  {
    assert forall i :: 0 <= i < |order| ==> order[i] in table;
    DisplayWritesImages(table, order, showPlayIcon, failing);
    var d := Display(table, order, showPlayIcon, failing);
    if exists k :: k in table && k in failing && table[k].image.Some? {
      var k :| k in table && k in failing && table[k].image.Some?;
      var i :| 0 <= i < |order| && order[i] == k;
      assert order[i] in failing && table[order[i]].image.Some?;
    }
    if d.outcome == Handled {
      forall k | k in table && table[k].image.Some?
        ensures exists j :: 0 <= j < |d.writes| && d.writes[j].key == k
      {
        var i :| 0 <= i < |order| && order[i] == k;
        assert table[order[i]].image.Some?;
      }
    }
  }

  /** What one poll of the panel returns. */
  datatype Poll = Pressed(states: seq<byte>) | NoData | DeviceError(code: nat)

  /** One iteration of the loop: the poll's result, what the world answers to a press, and whether the shutdown flag is set afterwards. */
  datatype Tick = Tick(poll: Poll, env: Env, kill: bool)

  datatype RunOutcome =
    | Stopped        // the shutdown flag was seen: orderly exit
    | Fatal(code: nat) // a device error other than no data
    | Polling        // the ticks ran out with the loop still going

  datatype RunResult = RunResult(world: World, outcome: RunOutcome)

  /** Every pressed index in the ticks names a key of the table. */
  ghost predicate PressesFit(script: seq<Tick>, keys: set<nat>) {
    forall i :: 0 <= i < |script| && script[i].poll.Pressed? && PressedIdx(script[i].poll.states).Some? ==>
      PressedIdx(script[i].poll.states).value in keys
  }

  /** The orderly stop: disconnect from the broker when there is a client, then stop the sink. */
  function Shutdown(w: World, s: Settings): (r: World)
    ensures r.table == w.table && r.writes == w.writes
    ensures r.sink == w.sink + [Stop]
    ensures r.broker == if s.hasBroker then w.broker + [Disconnected] else w.broker
  {
    w.(broker := if s.hasBroker then w.broker + [Disconnected] else w.broker, sink := w.sink + [Stop])
  }

  /** The run loop over a finite sequence of ticks. */
  function RunScript(w: World, script: seq<Tick>, s: Settings): (r: RunResult)
    requires PressesFit(script, w.table.Keys)
    decreases |script|
    ensures r.world.table.Keys == w.table.Keys
  {
    if script == [] then RunResult(w, Polling)
    else
      var t := script[0];
      if t.poll.DeviceError? then RunResult(w, Fatal(t.poll.code))
      else
        var next := if t.poll.Pressed? then Press(w, t.poll.states, s, t.env).world else w;
        assert forall i :: 1 <= i < |script| ==> script[1..][i - 1] == script[i];
        if t.kill then RunResult(Shutdown(next, s), Stopped) else RunScript(next, script[1..], s)
  }

  /** A poll with no data changes nothing: no key, no image, no sink or broker command. */
  lemma NoDataIsInert(w: World, script: seq<Tick>, s: Settings)
    requires script != [] && script[0].poll == NoData && !script[0].kill
    requires PressesFit(script, w.table.Keys)
    ensures PressesFit(script[1..], w.table.Keys)
    ensures RunScript(w, script, s) == RunScript(w, script[1..], s)
  {
    assert forall i :: 1 <= i < |script| ==> script[1..][i - 1] == script[i];
  }

  /** A press that fails is not fatal: the loop goes on from the state the press left. */
  lemma PressErrorsAreNotFatal(w: World, script: seq<Tick>, s: Settings)
    requires script != [] && script[0].poll.Pressed? && !script[0].kill
    requires PressesFit(script, w.table.Keys)
    ensures var p := Press(w, script[0].poll.states, s, script[0].env);
      && PressesFit(script[1..], p.world.table.Keys)
      && RunScript(w, script, s) == RunScript(p.world, script[1..], s)
  {
    assert forall i :: 1 <= i < |script| ==> script[1..][i - 1] == script[i];
  }

  /**
   * The loop stops in order only after a tick with the shutdown flag, and it is still
   * polling only when no tick carried a device error or the shutdown flag.
   */
  lemma {:induction false} RunEndsOnlyByFlagOrError(w: World, script: seq<Tick>, s: Settings)
    requires PressesFit(script, w.table.Keys)
    decreases |script|
    ensures RunScript(w, script, s).outcome == Stopped ==> exists i :: 0 <= i < |script| && script[i].kill
    ensures RunScript(w, script, s).outcome == Polling ==>
              forall i :: 0 <= i < |script| ==> !script[i].poll.DeviceError? && !script[i].kill
  {
    if script != [] {
      var t := script[0];
      if !t.poll.DeviceError? && !t.kill {
        var next := if t.poll.Pressed? then Press(w, t.poll.states, s, t.env).world else w;
        var tail := script[1..];
        assert forall i :: 1 <= i < |script| ==> tail[i - 1] == script[i];
        RunEndsOnlyByFlagOrError(next, tail, s);
        if RunScript(w, script, s).outcome == Stopped {
          var i :| 0 <= i < |tail| && tail[i].kill;
          assert script[i + 1].kill;
        }
      }
    }
  }

  /** Some tick carries the device error `code`, and no earlier tick carries a device error or the shutdown flag. */
  ghost predicate ErrorBeforeFlag(script: seq<Tick>, code: nat) {
    exists i :: 0 <= i < |script| && script[i].poll == DeviceError(code)
                && forall j :: 0 <= j < i ==> !script[j].poll.DeviceError? && !script[j].kill
  }

  /** A first tick with neither a device error nor the flag does not affect `ErrorBeforeFlag`. */
  lemma ErrorBeforeFlagSkip(script: seq<Tick>, code: nat)
    requires script != [] && !script[0].poll.DeviceError? && !script[0].kill
    ensures ErrorBeforeFlag(script, code) <==> ErrorBeforeFlag(script[1..], code)
  {
    var tail := script[1..];
    if ErrorBeforeFlag(tail, code) {
      var i :| 0 <= i < |tail| && tail[i].poll == DeviceError(code)
               && forall j :: 0 <= j < i ==> !tail[j].poll.DeviceError? && !tail[j].kill;
      assert script[i + 1].poll == DeviceError(code);
      assert forall j :: 0 <= j < i + 1 ==> !script[j].poll.DeviceError? && !script[j].kill by {
        forall j | 0 <= j < i + 1 ensures !script[j].poll.DeviceError? && !script[j].kill {
          if j > 0 { assert script[j] == tail[j - 1]; }
        }
      }
    }
    if ErrorBeforeFlag(script, code) {
      var i :| 0 <= i < |script| && script[i].poll == DeviceError(code)
               && forall j :: 0 <= j < i ==> !script[j].poll.DeviceError? && !script[j].kill;
      assert tail[i - 1].poll == DeviceError(code);
      assert forall j :: 0 <= j < i - 1 ==> !tail[j].poll.DeviceError? && !tail[j].kill by {
        forall j | 0 <= j < i - 1 ensures !tail[j].poll.DeviceError? && !tail[j].kill {
          assert tail[j] == script[j + 1];
        }
      }
    }
  }

  /** The loop ends with a device error exactly when one is polled before the shutdown flag is seen. */
  lemma {:induction false} FatalIff(w: World, script: seq<Tick>, s: Settings, code: nat)
    requires PressesFit(script, w.table.Keys)
    decreases |script|
    ensures RunScript(w, script, s).outcome == Fatal(code) <==> ErrorBeforeFlag(script, code)
  {
    if script == [] {
    } else if script[0].poll.DeviceError? {
      assert script[0].poll == DeviceError(code) ==> ErrorBeforeFlag(script, code);
    } else if script[0].kill {
    } else {
      var t := script[0];
      var next := if t.poll.Pressed? then Press(w, t.poll.states, s, t.env).world else w;
      var tail := script[1..];
      assert PressesFit(tail, next.table.Keys) by {
        assert forall i :: 1 <= i < |script| ==> tail[i - 1] == script[i];
      }
      assert RunScript(w, script, s) == RunScript(next, tail, s);
      FatalIff(next, tail, s, code);
      ErrorBeforeFlagSkip(script, code);
    }
  }

  /**
   * Only an orderly stop ends with the sink stopped and, when there is a client, the broker
   * disconnected; otherwise the broker has received nothing but publishes.
   */
  lemma {:induction false} ShutdownOnlyWhenStopped(w: World, script: seq<Tick>, s: Settings)
    requires PressesFit(script, w.table.Keys)
    decreases |script|
    ensures var r := RunScript(w, script, s);
      && w.broker <= r.world.broker
      && (r.outcome == Stopped ==> |r.world.sink| > 0 && r.world.sink[|r.world.sink| - 1] == Stop)
      && (r.outcome == Stopped && s.hasBroker ==> |r.world.broker| > 0 && r.world.broker[|r.world.broker| - 1] == Disconnected)
      && (r.outcome != Stopped || !s.hasBroker ==>
            forall i :: |w.broker| <= i < |r.world.broker| ==> r.world.broker[i].Published?)
  {
    if script != [] {
      var t := script[0];
      if !t.poll.DeviceError? {
        var next := if t.poll.Pressed? then Press(w, t.poll.states, s, t.env).world else w;
        if t.poll.Pressed? {
          PressOnlyAppends(w, t.poll.states, s, t.env);
        }
        if !t.kill {
          var tail := script[1..];
          assert forall i :: 1 <= i < |script| ==> tail[i - 1] == script[i];
          ShutdownOnlyWhenStopped(next, tail, s);
        }
      }
    }
  }
}
