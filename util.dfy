/**
 * Rate/window selector of lib/util: two fixed option tables (sample rate
 * and averaging length), an index into each, and two active-low push
 * buttons that advance an index on a high-to-low edge and raise a one-shot
 * "changed" flag.
 *
 * Levels are booleans: `true` is the resting (released, pulled-up) level,
 * `false` is pressed.
 */
module Util {
  import opened Arith

  /** Sample-rate options, in Hz. */
  const FsOptions: seq<nat> := [500, 1000, 5000]

  /** Averaging-length options, in samples. */
  const NOptions: seq<nat> := [8, 32, 128, 512]

  /** Microseconds per second, the numerator of the period. */
  const MicrosPerSecond: nat := 1000000

  /** One button together with the option index it cycles. */
  datatype Button = Button(idx: nat, last: bool, changed: bool)

  /** The whole selector: the rate button and the length button. */
  datatype Selector = Selector(fs: Button, n: Button)

  /** The state the module statics hold at power-up. */
  const Initial: Selector := Selector(Button(1, true, false), Button(0, true, false))

  /** Both indices point into their tables. */
  predicate InRange(s: Selector)
  {
    s.fs.idx < |FsOptions| && s.n.idx < |NOptions|
  }

  /** A high-to-low transition between the remembered level and the level just read. */
  predicate FallingEdge(last: bool, now: bool)
  {
    last && !now
  }

  /** One poll of one button over a table of `len` options. */
  function Poll(b: Button, now: bool, len: nat): Button
    requires 0 < len
  {
    if FallingEdge(b.last, now) then Button((b.idx + 1) % len, now, true)
    else b.(last := now)
  }

  /** One call of the button task: the rate button, then the length button. */
  function TaskStep(s: Selector, fsNow: bool, nNow: bool): Selector
  {
    Selector(Poll(s.fs, fsNow, |FsOptions|), Poll(s.n, nNow, |NOptions|))
  }

  /** Reading and clearing one button's flag. */
  function Consume(b: Button): (bool, Button)
  {
    (b.changed, b.(changed := false))
  }

  /** What the start-up routine does to one button: record its level, clear its flag. */
  function Reset(b: Button, level: bool): Button
  {
    b.(last := level, changed := false)
  }

  /** Polls one button with a sequence of successive levels. */
  function PollRun(b: Button, levels: seq<bool>, len: nat): Button
    requires 0 < len
    decreases |levels|
  {
    if levels == [] then b else PollRun(Poll(b, levels[0], len), levels[1..], len)
  }

  /** Runs the button task over two level sequences read in lock-step. */
  function Run(s: Selector, fsLevels: seq<bool>, nLevels: seq<bool>): Selector
    requires |fsLevels| == |nLevels|
    decreases |fsLevels|
  {
    if fsLevels == [] then s
    else Run(TaskStep(s, fsLevels[0], nLevels[0]), fsLevels[1..], nLevels[1..])
  }

  /** The number of high-to-low edges in `levels`, starting from level `last`. */
  function FallingEdges(last: bool, levels: seq<bool>): nat
    decreases |levels|
  {
    if levels == [] then 0
    else (if FallingEdge(last, levels[0]) then 1 else 0) + FallingEdges(levels[0], levels[1..])
  }

  /** `k` press-and-release cycles of one button. */
  function Clicks(k: nat): seq<bool>
  {
    if k == 0 then [] else [false, true] + Clicks(k - 1)
  }

  // ---------------------------------------------------------------------
  // Properties of one poll and of one task call

  /** A poll keeps the index in range, and advances it exactly on a falling edge. */
  lemma PollAdvancesOnlyOnEdge(b: Button, now: bool, len: nat)
    requires b.idx < len && 1 < len
    ensures Poll(b, now, len).idx < len
    ensures Poll(b, now, len).idx != b.idx <==> FallingEdge(b.last, now)
    ensures FallingEdge(b.last, now) ==> Poll(b, now, len).idx == (b.idx + 1) % len
    ensures Poll(b, now, len).last == now
    ensures Poll(b, now, len).changed == (b.changed || FallingEdge(b.last, now))
  {
  }

  /** A button held pressed, or left released, never advances and never raises its flag. */
  lemma HeldLevelNeverAdvances(b: Button, level: bool, k: nat, len: nat)
    requires 0 < len && b.last == level
    ensures PollRun(b, seq(k, _ => level), len) == b
  {
    var run := seq(k, _ => level);
    if k > 0 {
      assert run[1..] == seq(k - 1, _ => level);
      HeldLevelNeverAdvances(b, level, k - 1, len);
    }
  }

  /** The task keeps both indices in range and records the levels just read. */
  lemma TaskKeepsInvariant(s: Selector, fsNow: bool, nNow: bool)
    requires InRange(s)
    ensures InRange(TaskStep(s, fsNow, nNow))
    ensures TaskStep(s, fsNow, nNow).fs.last == fsNow
    ensures TaskStep(s, fsNow, nNow).n.last == nNow
  {
  }

  /**
   * The buttons are independent: an edge on the rate button leaves the
   * length button's index and flag alone, and the other way round.
   */
  lemma TaskButtonsIndependent(s: Selector, fsNow: bool, nNow: bool)
    ensures !FallingEdge(s.n.last, nNow) ==>
      TaskStep(s, fsNow, nNow).n == s.n.(last := nNow)
    ensures !FallingEdge(s.fs.last, fsNow) ==>
      TaskStep(s, fsNow, nNow).fs == s.fs.(last := fsNow)
    ensures TaskStep(s, fsNow, nNow).fs == TaskStep(s, fsNow, !nNow).fs
    ensures TaskStep(s, fsNow, nNow).n == TaskStep(s, !fsNow, nNow).n
  {
  }

  // ---------------------------------------------------------------------
  // Properties of runs of several task calls

  /** Polling with `levels` counts the falling edges modulo the table length. */
  lemma {:induction false} PollRunCountsEdges(b: Button, levels: seq<bool>, len: nat)
    requires 0 < len && b.idx < len
    ensures PollRun(b, levels, len).idx == (b.idx + FallingEdges(b.last, levels)) % len
    ensures PollRun(b, levels, len).changed == (b.changed || FallingEdges(b.last, levels) > 0)
    ensures PollRun(b, levels, len).last == if levels == [] then b.last else levels[|levels| - 1]
    decreases |levels|
  {
    if levels != [] {
      var b' := Poll(b, levels[0], len);
      PollRunCountsEdges(b', levels[1..], len);
      var e := FallingEdges(levels[0], levels[1..]);
      if FallingEdge(b.last, levels[0]) {
        ModAddOne(b.idx, e, len);
      }
      if levels[1..] != [] {
        assert levels[1..][|levels[1..]| - 1] == levels[|levels| - 1];
      }
    }
  }

  // Modular-arithmetic helpers for a table of `len` options.

  lemma ModAddOne(i: nat, e: nat, len: nat)
    requires i < len
    ensures ((i + 1) % len + e) % len == (i + 1 + e) % len
  {
    if i + 1 == len {
      DivModUnique(i + 1, len, 1, 0);
      var q, r := e / len, e % len;
      assert e == q * len + r;
      DivModUnique(i + 1 + e, len, q + 1, r);
    } else {
      DivModUnique(i + 1, len, 0, i + 1);
    }
  }

  lemma AddLen(i: nat, len: nat)
    requires i < len
    ensures (i + len) % len == i
  {
    DivModUnique(i + len, len, 1, i);
  }

  /** A run of the task is a run of each button on its own levels: neither sees the other. */
  lemma {:induction false} RunIsPerButton(s: Selector, fsLevels: seq<bool>, nLevels: seq<bool>)
    requires |fsLevels| == |nLevels|
    ensures Run(s, fsLevels, nLevels) ==
      Selector(PollRun(s.fs, fsLevels, |FsOptions|), PollRun(s.n, nLevels, |NOptions|))
    decreases |fsLevels|
  {
    if fsLevels != [] {
      RunIsPerButton(TaskStep(s, fsLevels[0], nLevels[0]), fsLevels[1..], nLevels[1..]);
    }
  }

  /** `k` press-and-release cycles starting released make exactly `k` falling edges. */
  lemma {:induction false} ClicksAreEdges(k: nat)
    ensures FallingEdges(true, Clicks(k)) == k
    ensures |Clicks(k)| == 2 * k
    ensures k > 0 ==> Clicks(k)[2 * k - 1]
  {
    if k > 0 {
      ClicksAreEdges(k - 1);
      var c := Clicks(k);
      assert c[1..] == [true] + Clicks(k - 1);
      assert c[1..][1..] == Clicks(k - 1);
    }
  }

  /**
   * Pressing and releasing a released button as many times as its table
   * has entries brings its index back to where it started, with the
   * flag raised and the button released again.
   */
  lemma ClicksCycleBack(b: Button, len: nat)
    requires 0 < len && b.idx < len && b.last
    ensures PollRun(b, Clicks(len), len) == b.(changed := true)
  {
    ClicksAreEdges(len);
    PollRunCountsEdges(b, Clicks(len), len);
    AddLen(b.idx, len);
  }

  /** Three rate clicks give back the original rate; four length clicks the original length. */
  lemma FullCycleRestoresOptions(s: Selector)
    requires InRange(s) && s.fs.last && s.n.last
    ensures PollRun(s.fs, Clicks(|FsOptions|), |FsOptions|).idx == s.fs.idx
    ensures FsOptions[PollRun(s.fs, Clicks(|FsOptions|), |FsOptions|).idx] == FsOptions[s.fs.idx]
    ensures PollRun(s.n, Clicks(|NOptions|), |NOptions|).idx == s.n.idx
    ensures NOptions[PollRun(s.n, Clicks(|NOptions|), |NOptions|).idx] == NOptions[s.n.idx]
  {
    ClicksCycleBack(s.fs, |FsOptions|);
    ClicksCycleBack(s.n, |NOptions|);
  }

  // ---------------------------------------------------------------------
  // Properties of the one-shot flags

  /**
   * A consume returns the flag and clears it, so a second consume with no
   * task call in between returns false; the index and level are untouched.
   */
  lemma ConsumeIsOneShot(b: Button)
    ensures Consume(b).0 == b.changed
    ensures !Consume(Consume(b).1).0
    ensures Consume(b).1.idx == b.idx && Consume(b).1.last == b.last
  {
  }

  /** After a falling edge the next consume reports true; with no edge the flag is left as it was. */
  lemma EdgeRaisesFlag(s: Selector, fsNow: bool, nNow: bool)
    ensures FallingEdge(s.fs.last, fsNow) ==> Consume(TaskStep(s, fsNow, nNow).fs).0
    ensures FallingEdge(s.n.last, nNow) ==> Consume(TaskStep(s, fsNow, nNow).n).0
    ensures !FallingEdge(s.fs.last, fsNow) ==> TaskStep(s, fsNow, nNow).fs.changed == s.fs.changed
    ensures !FallingEdge(s.n.last, nNow) ==> TaskStep(s, fsNow, nNow).n.changed == s.n.changed
  {
  }

  /** The power-up state selects 1000 Hz and 8 samples, with no pending change. */
  lemma InitialSelection()
    ensures InRange(Initial)
    ensures FsOptions[Initial.fs.idx] == 1000 && NOptions[Initial.n.idx] == 8
    ensures !Initial.fs.changed && !Initial.n.changed
  {
  }

  /** The module statics of util.c, updated in place by its routines. */
  class Buttons {
    var fsIdx: nat
    var nIdx: nat
    var fsLast: bool
    var nLast: bool
    var fsChanged: bool
    var nChanged: bool

    /** The selector value the fields hold. */
    function Model(): Selector
      reads this
    {
      Selector(Button(fsIdx, fsLast, fsChanged), Button(nIdx, nLast, nChanged))
    }

    predicate Valid()
      reads this
    {
      InRange(Model())
    }

    /** Power-up values of the statics. */
    constructor ()
      ensures Model() == Initial && Valid()
    {
      fsIdx, nIdx := 1, 0;
      fsLast, nLast := true, true;
      fsChanged, nChanged := false, false;
    }

    /** Records the current level of each button and clears both flags; the indices stay. */
    method Begin(fsLevel: bool, nLevel: bool)
      requires Valid()
      modifies this
      ensures Valid()
      ensures Model() == Selector(Reset(old(Model()).fs, fsLevel), Reset(old(Model()).n, nLevel))
      ensures fsIdx == old(fsIdx) && nIdx == old(nIdx) && !fsChanged && !nChanged
    {
      fsLast := fsLevel;
      fsChanged := false;
      nLast := nLevel;
      nChanged := false;
    }

    /** One poll of both buttons: advance on a high-to-low edge, remember the level. */
    method Task(fsNow: bool, nNow: bool)
      requires Valid()
      modifies this
      ensures Valid()
      ensures Model() == TaskStep(old(Model()), fsNow, nNow)
    {
      if fsLast && !fsNow {
        fsIdx := (fsIdx + 1) % 3;
        fsChanged := true;
      }
      fsLast := fsNow;

      if nLast && !nNow {
        nIdx := (nIdx + 1) % 4;
        nChanged := true;
      }
      nLast := nNow;
    }

    /** Returns whether the rate changed since the last call, and clears the flag. */
    method ConsumeFsChanged() returns (f: bool)
      requires Valid()
      modifies this
      ensures Valid()
      ensures (f, Model().fs) == Consume(old(Model()).fs) && Model().n == old(Model()).n
    {
      f := fsChanged;
      fsChanged := false;
    }

    /** Returns whether the length changed since the last call, and clears the flag. */
    method ConsumeNChanged() returns (f: bool)
      requires Valid()
      modifies this
      ensures Valid()
      ensures (f, Model().n) == Consume(old(Model()).n) && Model().fs == old(Model()).fs
    {
      f := nChanged;
      nChanged := false;
    }

    /** The selected sample rate. */
    function Fs(): (r: nat)
      requires Valid()
      reads this
      ensures r in FsOptions
      ensures r == 500 || r == 1000 || r == 5000
    {
      FsOptions[fsIdx]
    }

    /** The selected averaging length. */
    function N(): (r: nat)
      requires Valid()
      reads this
      ensures r in NOptions
      ensures r == 8 || r == 32 || r == 128 || r == 512
    {
      NOptions[nIdx]
    }

    /** The sampling period in microseconds: one second divided by the selected rate. */
    function PeriodUs(): (r: nat)
      requires Valid()
      reads this
      ensures r * Fs() <= MicrosPerSecond < (r + 1) * Fs()
      ensures r == 2000 || r == 1000 || r == 200
    {
      MicrosPerSecond / Fs()
    }
  }
}
