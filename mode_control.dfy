/** The controller of colortransfer.cpp as the source holds it: the globals
    `currentMode` and `trackbars` become the fields of one object, the label
    and rate arrays stay fixed three-slot arrays, and `changeMode`, the
    trackbar callback and the event loop of `main` update them in place. Each
    method is proved against the state machine of module ModeMachine. */
module ModeControl {
  import opened Modes
  import opened ModeMachine

  class Controller {
    /** `currentMode` */
    var mode: Mode
    /** `trackbars.componentNames` */
    const names: array<string>
    /** `trackbars.componentVals`, the percent rates the sliders write */
    const vals: array<int>
    /** The parameters read by every recompute so far, oldest first. */
    ghost var log: seq<Params>

    /** The abstract state the fields stand for. */
    ghost function Abs(): State
      reads this, names, vals
    {
      State(mode, names[..], vals[..], log)
    }

    ghost predicate Valid()
      reads this, names, vals
    {
      names.Length == 3 && vals.Length == 3 && Inv(Abs())
    }

    /** The zero-initialised globals: mode NONE, empty labels, zero rates. */
    constructor ()
      ensures Valid() && Abs() == Initial()
      ensures fresh(names) && fresh(vals)
    {
      mode := NONE;
      names := new string[3](_ => "");
      vals := new int[3](_ => 0);
      log := [];
      new;
      assert names[..] == ["", "", ""];
      assert vals[..] == [0, 0, 0];
    }

    /** `updateTransfer`: recompute the transfer from the current mode and
        rates. The image pipeline is not modelled; the recompute is recorded
        by the parameters it reads. */
    method Recompute()
      modifies this`log
      ensures log == old(log) + [TransferParams(mode, vals[..])]
    {
      log := log + [TransferParams(mode, vals[..])];
    }

    /** `changeMode`: decode the key; on a real mode change set the mode and
        the three labels, reset the three rates to 100 in a loop, and
        recompute once. Returns 0 for escape and 1 otherwise. */
    method ChangeMode(keypress: KeyCode) returns (r: int)
      requires Valid()
      modifies this, names, vals
      ensures Valid()
      ensures Abs() == Step(old(Abs()), keypress)
      ensures r == Reply(keypress)
      ensures mode == old(mode) ==>
        names[..] == old(names[..]) && vals[..] == old(vals[..]) && log == old(log)
      ensures mode != old(mode) ==>
        names[..] == Labels(mode) && vals[..] == FullRates
        && log == old(log) + [TransferParams(mode, FullRates)]
    {
      match Decode(keypress)
      case Quit =>
        return 0;
      case Ignore =>
        return 1;
      case Select(m) =>
        if mode == m {
          return 1;
        }
        mode := m;
        var labels := Labels(m);
        names[0] := labels[0];
        names[1] := labels[1];
        names[2] := labels[2];
        var i := 0;
        while i < 3
          invariant 0 <= i <= 3
          invariant mode == m && names[..] == labels
          invariant forall j :: 0 <= j < i ==> vals[j] == 100
          invariant log == old(log)
        {
          vals[i] := 100;
          i := i + 1;
        }
        assert vals[..] == FullRates;
        Recompute();
        return 1;
    }

    /** The trackbar callback: the slider has written `v` (0..100, the
        slider maximum) into channel `i`'s rate; the transfer is recomputed. */
    method SetRate(i: int, v: int)
      requires Valid()
      requires 0 <= i < 3 && 0 <= v <= 100
      modifies this`log, vals
      ensures Valid()
      ensures Abs() == Slide(old(Abs()), i, v)
      ensures mode == old(mode) && names[..] == old(names[..])
      ensures vals[i] == v
      ensures forall j :: 0 <= j < 3 && j != i ==> vals[j] == old(vals[j])
      ensures log == old(log) + [TransferParams(mode, vals[..])]
    {
      vals[i] := v;
      Recompute();
    }

    /** One event delivered while `waitKey(0)` blocks: a returned key code
        goes to `changeMode`, whose result is returned; a slider move runs
        the trackbar callback and the loop goes on (1). */
    method Dispatch(e: Event) returns (go: int)
      requires Valid()
      modifies this, names, vals
      ensures Valid()
      ensures Abs() == Apply(old(Abs()), e)
      ensures go == 0 <==> IsEscape(e)
    {
      match e
      case Key(code) =>
        go := ChangeMode(Narrow(code));
      case Move(i, v) =>
        SetRate(i, v);
        go := 1;
    }

    /** The loop `while(changeMode(waitKey(0)));` over the events the user
        produces, read until `changeMode` returns 0 or they run out; returns
        how many were read. */
    method EventLoop(events: seq<Event>) returns (consumed: nat)
      requires Valid()
      modifies this, names, vals
      ensures Valid()
      ensures (Abs(), consumed) == Loop(old(Abs()), events)
    {
      consumed := 0;
      var go := 1;
      ghost var start := Abs();
      ghost var prefix: seq<Event> := [];
      while go != 0 && consumed < |events|
        invariant Valid()
        invariant consumed <= |events| && prefix == events[..consumed]
        invariant Abs() == Fold(start, prefix)
        invariant go != 0 ==> NoEscape(prefix)
        invariant go == 0 ==> StopsAtEscape(events, consumed)
        decreases |events| - consumed
      {
        var e := events[consumed];
        FoldSnoc(start, prefix, e);
        go := Dispatch(e);
        ReadOneMore(events, consumed);
        prefix := prefix + [e];
        consumed := consumed + 1;
      }
      if go != 0 {
        assert prefix == events;
      }
      LoopDeterminedByFirstEscape(start, events, consumed);
    }
  }

  /** `main` after loading the images: the controller starts from the
      zero-initialised globals, `changeMode('l')` selects Lab, then the loop
      runs over the keys and slider moves of the user. */
  method Session(events: seq<Event>) returns (c: Controller, consumed: nat)
    ensures c.Valid()
    ensures (c.Abs(), consumed) == Loop(Step(Initial(), 'l' as int), events)
  {
    c := new Controller();
    var _ := c.ChangeMode('l' as int);
    consumed := c.EventLoop(events);
  }
}
