/** The mode/rate controller of colortransfer.cpp as a pure state machine:
    the state held in the globals `currentMode` and `trackbars`, one step per
    keypress, one step per trackbar move, and the event loop of `main`. Every
    recompute of the transfer is recorded by the parameters it read, so that
    "exactly one recompute" and "the output reflects the current settings"
    can be stated. */
module ModeMachine {
  import opened Modes

  /** The controller state: mode, trackbar labels, percent rates and the log
      of recomputes (the parameters each recompute read, oldest first). */
  datatype State = State(mode: Mode, names: seq<string>, vals: seq<int>, log: seq<Params>)

  /** The rates every real mode change installs. */
  const FullRates: seq<int> := [100, 100, 100]

  /** The zero-initialised globals before `main` runs: no mode, empty
      labels, zero rates and no recompute yet. */
  function Initial(): (s: State)
    ensures Inv(s) && s.mode == NONE && s.log == []
  {
    State(NONE, ["", "", ""], [0, 0, 0], [])
  }

  /** The controller invariant: three labels matching the mode, three rates
      within the trackbar range 0..100, and the latest recompute read the
      current mode and rates (no recompute has happened only in mode NONE). */
  predicate Inv(s: State)
    ensures Inv(s) ==>
      |s.vals| == 3 && forall c :: 0 <= c < 3 ==> 0.0 <= TransferParams(s.mode, s.vals).rates[c] <= 1.0
    ensures Inv(s) && s.mode != NONE ==> s.log != []
  {
    |s.names| == 3 && |s.vals| == 3 && s.names == Labels(s.mode)
    && (forall c :: 0 <= c < 3 ==> 0 <= s.vals[c] <= 100)
    && (s.log == [] ==> s.mode == NONE)
    && (s.log != [] ==> s.log[|s.log| - 1] == TransferParams(s.mode, s.vals))
  }

  /** `updateTransfer`: one recompute, reading the current mode and rates;
      afterwards the latest output reflects the current settings. */
  function Recompute(s: State): (t: State)
    ensures t.mode == s.mode && t.names == s.names && t.vals == s.vals
    ensures |t.log| == |s.log| + 1 && t.log[..|s.log|] == s.log
    ensures t.log[|s.log|] == TransferParams(s.mode, s.vals)
    ensures (|s.names| == 3 && |s.vals| == 3 && s.names == Labels(s.mode)
      && forall c :: 0 <= c < 3 ==> 0 <= s.vals[c] <= 100) ==> Inv(t)
  {
    s.(log := s.log + [TransferParams(s.mode, s.vals)])
  }

  /** A keypress (`changeMode`). A key selecting the active mode, an unknown
      key and escape change nothing; a key selecting another mode switches to
      it, installs its labels, resets every rate to 100 and recomputes once. */
  function Step(s: State, c: KeyCode): (t: State)
    ensures Inv(s) ==> Inv(t)
    ensures Decode(c).Select? ==> t.mode == Decode(c).target
    ensures t.mode == s.mode ==> t == s
    ensures t.mode != s.mode ==> Decode(c) == Select(t.mode)
    ensures t.mode != s.mode ==>
      t.names == Labels(t.mode) && t.vals == FullRates
      && t.log == s.log + [TransferParams(t.mode, FullRates)]
  {
    match Decode(c)
    case Select(m) =>
      if s.mode == m then s else Recompute(State(m, Labels(m), FullRates, s.log))
    case _ => s
  }

  /** The value `changeMode` returns: 0 for escape, which ends the key loop,
      and 1 for every other key. */
  function Reply(c: KeyCode): (r: int)
    ensures r == 0 <==> c == ESC
    ensures r == 0 || r == 1
  {
    if Decode(c) == Quit then 0 else 1
  }

  /** A trackbar move: the slider writes channel `i`'s percent rate, then
      the transfer is recomputed once. */
  function Slide(s: State, i: int, v: int): (t: State)
    requires 0 <= i < |s.vals|
    ensures Inv(s) && 0 <= v <= 100 ==> Inv(t)
    ensures t.mode == s.mode && t.names == s.names
    ensures |t.vals| == |s.vals| && t.vals[i] == v
    ensures forall j :: 0 <= j < |s.vals| && j != i ==> t.vals[j] == s.vals[j]
    ensures |t.log| == |s.log| + 1 && t.log[..|s.log|] == s.log
    ensures t.log[|s.log|] == TransferParams(t.mode, t.vals)
  {
    Recompute(s.(vals := s.vals[i := v]))
  }

  /** A trackbar index and a slider position (the slider maximum is 100). */
  type Channel = i: int | 0 <= i < 3
  type Percent = v: int | 0 <= v <= 100

  /** What `waitKey(0)` delivers while it blocks: a key code it returns, or
      a slider move whose callback runs inside it. */
  datatype Event = Key(code: int) | Move(channel: Channel, percent: Percent)

  /** One event applied to the controller. */
  function Apply(s: State, e: Event): (t: State)
    requires |s.vals| == 3
    ensures |t.vals| == 3
    ensures Inv(s) ==> Inv(t)
    ensures e.Move? ==> t.mode == s.mode && t.vals[e.channel] == e.percent
    ensures e.Move? ==>
      t.names == s.names
      && (forall j :: 0 <= j < 3 && j != e.channel ==> t.vals[j] == s.vals[j])
      && |t.log| == |s.log| + 1 && t.log[..|s.log|] == s.log
      && t.log[|s.log|] == TransferParams(t.mode, t.vals)
    ensures e.Key? && Decode(Narrow(e.code)).Select? ==>
      t.mode == Decode(Narrow(e.code)).target
    ensures e.Key? && t.mode == s.mode ==> t == s
    ensures e.Key? && t.mode != s.mode ==> Decode(Narrow(e.code)) == Select(t.mode)
    ensures e.Key? && t.mode != s.mode ==>
      t.names == Labels(t.mode) && t.vals == FullRates
      && t.log == s.log + [TransferParams(t.mode, FullRates)]
  {
    match e
    case Key(code) => Step(s, Narrow(code))
    case Move(i, v) => Slide(s, i, v)
  }

  predicate IsEscape(e: Event)
  {
    e.Key? && Narrow(e.code) == ESC
  }

  /** The loop `while(changeMode(waitKey(0)));` over a finite event
      sequence: the final state and the number of events read. */
  function Loop(s: State, events: seq<Event>): (r: (State, nat))
    requires |s.vals| == 3
    ensures |r.0.vals| == 3
    ensures Inv(s) ==> Inv(r.0)
    ensures r.1 <= |events|
    ensures events != [] ==> r.1 > 0
    decreases |events|
  {
    if events == [] then (s, 0)
    else
      var t := Apply(s, events[0]);
      if IsEscape(events[0]) then (t, 1)
      else
        var rest := Loop(t, events[1..]);
        (rest.0, rest.1 + 1)
  }

  /** Every event of a sequence applied in order, without stopping. */
  function Fold(s: State, events: seq<Event>): (t: State)
    requires |s.vals| == 3
    ensures |t.vals| == 3
    ensures Inv(s) ==> Inv(t)
    decreases |events|
  {
    if events == [] then s else Fold(Apply(s, events[0]), events[1..])
  }

  /** The mode selected by the last mode key of a sequence, or `m` if the
      sequence holds none. */
  function LastSelected(m: Mode, events: seq<Event>): Mode
  {
    if events == [] then m
    else
      var e := events[|events| - 1];
      if e.Key? && Decode(Narrow(e.code)).Select? then Decode(Narrow(e.code)).target
      else LastSelected(m, events[..|events| - 1])
  }

  lemma {:induction false} FoldSnoc(s: State, events: seq<Event>, e: Event)
    requires |s.vals| == 3
    ensures Fold(s, events + [e]) == Apply(Fold(s, events), e)
    decreases |events|
  {
    if events == [] {
      assert events + [e] == [e];
    } else {
      assert (events + [e])[1..] == events[1..] + [e];
      FoldSnoc(Apply(s, events[0]), events[1..], e);
    }
  }

  /** After any event sequence the active mode is the one named by the last
      mode key pressed; slider moves never change it. */
  lemma {:induction false} FoldMode(s: State, events: seq<Event>)
    requires |s.vals| == 3
    ensures Fold(s, events).mode == LastSelected(s.mode, events)
  {
    if events != [] {
      var init, e := events[..|events| - 1], events[|events| - 1];
      assert events == init + [e];
      FoldSnoc(s, init, e);
      FoldMode(s, init);
    }
  }

  /** Keys that select no mode (escape included) leave the state untouched:
      no label change, no rate reset, no recompute. */
  lemma {:induction false} FoldIgnoresNonModeKeys(s: State, events: seq<Event>)
    requires |s.vals| == 3
    requires forall j :: 0 <= j < |events| ==>
      events[j].Key? && !Decode(Narrow(events[j].code)).Select?
    ensures Fold(s, events) == s
    decreases |events|
  {
    if events != [] {
      FoldIgnoresNonModeKeys(Apply(s, events[0]), events[1..]);
    }
  }

  /** The loop stops exactly at the first escape: every event before the
      last one read is not escape, the last one read is escape unless the
      events ran out, and the final state is that of all events read applied
      in order. */
  lemma {:induction false} LoopStopsAtFirstEscape(s: State, events: seq<Event>)
    requires |s.vals| == 3
    ensures var n := Loop(s, events).1;
      (forall j :: 0 <= j < n - 1 ==> !IsEscape(events[j]))
      && (n == |events| || (0 < n && IsEscape(events[n - 1])))
      && Loop(s, events).0 == Fold(s, events[..n])
    decreases |events|
  {
    if events != [] {
      var t := Apply(s, events[0]);
      if IsEscape(events[0]) {
        assert events[..1] == [events[0]];
        assert Fold(s, events[..1]) == Fold(t, events[..1][1..]);
        assert events[..1][1..] == [];
      } else {
        LoopStopsAtFirstEscape(t, events[1..]);
        var m := Loop(t, events[1..]).1;
        assert Loop(s, events) == (Loop(t, events[1..]).0, m + 1);
        assert events[..m + 1][1..] == events[1..][..m];
        assert Fold(s, events[..m + 1]) == Fold(t, events[1..][..m]);
        assert forall j :: 1 <= j < m ==> events[j] == events[1..][j - 1];
      }
    }
  }

  /** No event of the sequence is escape. */
  predicate NoEscape(events: seq<Event>)
  {
    forall j :: 0 <= j < |events| ==> !IsEscape(events[j])
  }

  /** Reading `n` events stops at the first escape, or at the end. */
  predicate StopsAtEscape(events: seq<Event>, n: nat)
  {
    n <= |events| && (forall j :: 0 <= j < n - 1 ==> !IsEscape(events[j]))
    && (n == |events| || (0 < n && IsEscape(events[n - 1])))
  }

  /** Reading one more event after an escape-free prefix: either it is the
      first escape, where reading stops, or the prefix stays escape-free. */
  lemma ReadOneMore(events: seq<Event>, n: nat)
    requires n < |events| && NoEscape(events[..n])
    ensures IsEscape(events[n]) ==> StopsAtEscape(events, n + 1)
    ensures !IsEscape(events[n]) ==> NoEscape(events[..n] + [events[n]])
  {
    assert events[..n + 1][..n] == events[..n];
  }

  /** Conversely, stopping at the first escape (or at the end) determines
      the loop's result: the count read and the state reached. */
  lemma LoopDeterminedByFirstEscape(s: State, events: seq<Event>, n: nat)
    requires |s.vals| == 3 && StopsAtEscape(events, n)
    ensures Loop(s, events) == (Fold(s, events[..n]), n)
  {
    LoopStopsAtFirstEscape(s, events);
  }

  /** Startup: from the zero-initialised globals, the key 'l' installs Lab,
      its labels and full rates, and recomputes once with the Lab pair. */
  lemma StartupSelectsLab()
    ensures Step(Initial(), 'l' as int)
      == State(LAB, ["Luminance", "Alpha", "Beta"], [100, 100, 100],
               [Params(ConversionPair(BgrToLab, LabToBgr), [1.0, 1.0, 1.0])])
  {
    var p := TransferParams(LAB, FullRates);
    assert p.rates == [1.0, 1.0, 1.0];
  }

  /** In a whole session (startup key, then the loop over keys and slider
      moves) the mode stays a real one and the output shown at the end was
      computed from the final mode and rates. */
  lemma SessionOutputIsCurrent(events: seq<Event>)
    ensures var s := Loop(Step(Initial(), 'l' as int), events).0;
      Inv(s) && s.mode != NONE && s.log != []
      && s.log[|s.log| - 1] == TransferParams(s.mode, s.vals)
  {
    var s0 := Step(Initial(), 'l' as int);
    StartupSelectsLab();
    LoopStopsAtFirstEscape(s0, events);
    var n := Loop(s0, events).1;
    FoldMode(s0, events[..n]);
    LastSelectedIsMode(LAB, events[..n]);
  }

  /** Mode keys only ever select a real mode, so a real mode stays real. */
  lemma {:induction false} LastSelectedIsMode(m: Mode, events: seq<Event>)
    requires m != NONE
    ensures LastSelected(m, events) != NONE
  {
    if events != [] {
      LastSelectedIsMode(m, events[..|events| - 1]);
    }
  }
}
