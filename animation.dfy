/** Frame stepping of the Unity animation player (unity3d/AnimateScript.cs:33-47,
    187-234) as functions on values: a clip is a list of models shown one at a
    time; each elapsed interval hides the shown model and shows the next one,
    and running off either end of the list counts one loop and restarts. */
module Animation {
  import opened Wrappers

  datatype LoopType = Forward | PingPong

  /** An animation instance: how many models it has, the seconds per frame,
      how many passes to play (-1 for no limit) and how to restart. */
  datatype Clip = Clip(count: nat, interval: real, loops: int, kind: LoopType)

  /** animation_index, loops and reversed of the player. */
  datatype Playhead = Playhead(index: int, loops: int, reversed: bool)

  /** Model number index of the clip named clip. */
  datatype Frame = Frame(clip: string, index: int)

  /** The player's frame state: the playhead, the model in `current`, and the
      models that are active (shown) in the scene. */
  datatype Stage = Stage(head: Playhead, current: Option<Frame>, active: set<Frame>)

  /** Where an update ended, and whether it ended by an exception. */
  datatype Run = Run(stage: Stage, thrown: bool)

  /** on_loop (unity3d/AnimateScript.cs:187-210): a limited loop count drops
      by one and, on reaching zero, leaves the index where it is; otherwise a
      forward clip restarts at 0 and a ping-pong clip turns round and resumes
      one short of the end it reached. */
  function OnLoop(c: Clip, h: Playhead): (r: Playhead)
    ensures r.loops == if h.loops == -1 then -1 else h.loops - 1
    ensures h.loops == 1 ==> r.index == h.index && r.reversed == h.reversed
    ensures h.loops != 1 && c.kind == Forward ==> r.index == 0 && r.reversed == h.reversed
    ensures h.loops != 1 && c.kind == PingPong ==>
      r.reversed == !h.reversed && r.index == (if r.reversed then c.count - 2 else 1)
  {
    var loops := if h.loops != -1 then h.loops - 1 else h.loops;
    if h.loops != -1 && loops == 0 then h.(loops := loops)
    else
      match c.kind
      case Forward => Playhead(0, loops, h.reversed)
      case PingPong =>
        var reversed := !h.reversed;
        Playhead(if reversed then c.count - 2 else 1, loops, reversed)
  }

  /** One step of the playhead (unity3d/AnimateScript.cs:222-230): one model
      on in its direction, or, past either end of the list, one loop counted. */
  function Advance(c: Clip, h: Playhead): (r: Playhead)
    ensures var next := if h.reversed then h.index - 1 else h.index + 1;
      0 <= next < c.count ==> r == Playhead(next, h.loops, h.reversed)
    ensures var next := if h.reversed then h.index - 1 else h.index + 1;
      !(0 <= next < c.count) ==> r.loops == if h.loops == -1 then -1 else h.loops - 1
  {
    var next := if h.reversed then h.index - 1 else h.index + 1;
    if next >= c.count || next < 0 then OnLoop(c, h) else h.(index := next)
  }

  /** A clip the player can step through without leaving its model list:
      a forward clip needs one model, a ping-pong clip two. */
  predicate Playable(c: Clip) {
    match c.kind
    case Forward => c.count >= 1
    case PingPong => c.count >= 2
  }

  /** A step from a model of a playable clip lands on a model of the clip. */
  lemma AdvanceInRange(c: Clip, h: Playhead)
    requires Playable(c) && 0 <= h.index < c.count
    ensures 0 <= Advance(c, h).index < c.count
  {
  }

  /** `ticks` passes of the while loop of update_animation
      (unity3d/AnimateScript.cs:219-233): the shown model is hidden, the
      playhead steps and the model it lands on is shown.  Indexing the model
      list outside its bounds raises ArgumentOutOfRangeException, at line 221
      before anything changes or at line 231 after the step. */
  function Frames(name: string, c: Clip, s: Stage, ticks: nat): (r: Run)
    ensures r.stage.head.loops <= s.head.loops
    decreases ticks
  {
    if ticks == 0 then Run(s, false)
    else if !(0 <= s.head.index < c.count) then Run(s, true)
    else
      var hidden := s.active - {Frame(name, s.head.index)};
      var h := Advance(c, s.head);
      if !(0 <= h.index < c.count) then Run(Stage(h, s.current, hidden), true)
      else Frames(name, c, Stage(h, Some(Frame(name, h.index)), hidden + {Frame(name, h.index)}), ticks - 1)
  }

  /** update_animation (unity3d/AnimateScript.cs:212-234) for a clip that is
      set, when the accumulated time covers `ticks` whole intervals. */
  function Update(name: string, c: Clip, s: Stage, ticks: nat): (r: Run)
    ensures c.interval == 0.0 || s.head.loops == 0 ==> r == Run(s, false)
  {
    if c.interval == 0.0 then Run(s, false)
    else if s.head.loops == 0 then Run(s, false)
    else Frames(name, c, s, ticks)
  }

  /** The display invariant: exactly one model is shown, the one the playhead
      is on, and it is `current`. */
  predicate Shows(name: string, s: Stage) {
    s.current == Some(Frame(name, s.head.index)) && s.active == {Frame(name, s.head.index)}
  }

  /** A playable clip never raises, keeps the playhead on its models and keeps
      exactly the playhead's model shown. */
  lemma {:induction false} FramesPlayable(name: string, c: Clip, s: Stage, ticks: nat)
    requires Playable(c) && 0 <= s.head.index < c.count && Shows(name, s)
    ensures var r := Frames(name, c, s, ticks);
      !r.thrown && 0 <= r.stage.head.index < c.count && Shows(name, r.stage)
    decreases ticks
  {
    if ticks > 0 {
      var h := Advance(c, s.head);
      AdvanceInRange(c, s.head);
      var hidden := s.active - {Frame(name, s.head.index)};
      assert hidden == {};
      FramesPlayable(name, c, Stage(h, Some(Frame(name, h.index)), hidden + {Frame(name, h.index)}), ticks - 1);
    }
  }

  lemma UpdatePlayable(name: string, c: Clip, s: Stage, ticks: nat)
    requires Playable(c) && 0 <= s.head.index < c.count && Shows(name, s)
    ensures var r := Update(name, c, s, ticks);
      !r.thrown && 0 <= r.stage.head.index < c.count && Shows(name, r.stage)
  {
    FramesPlayable(name, c, s, ticks);
  }

  /** A clip without a loop limit keeps playing for ever: -1 is never changed. */
  lemma {:induction false} UnlimitedStaysUnlimited(name: string, c: Clip, s: Stage, ticks: nat)
    requires s.head.loops == -1
    ensures Frames(name, c, s, ticks).stage.head.loops == -1
    decreases ticks
  {
    if ticks > 0 && 0 <= s.head.index < c.count {
      var hidden := s.active - {Frame(name, s.head.index)};
      var h := Advance(c, s.head);
      if 0 <= h.index < c.count {
        UnlimitedStaysUnlimited(name, c, Stage(h, Some(Frame(name, h.index)), hidden + {Frame(name, h.index)}), ticks - 1);
      }
    }
  }

  /** A ping-pong clip of one model turns round to index -1 and raises. */
  lemma SingleModelPingPongThrows(name: string, interval: real)
    requires interval != 0.0
    ensures var s := Stage(Playhead(0, -1, false), Some(Frame(name, 0)), {Frame(name, 0)});
      var r := Update(name, Clip(1, interval, -1, PingPong), s, 1);
      r.thrown && r.stage.head.index == -1 && r.stage.active == {}
  {
    var s := Stage(Playhead(0, -1, false), Some(Frame(name, 0)), {Frame(name, 0)});
    assert s.active - {Frame(name, 0)} == {};
  }

  /** update_animation as written: the `loops == 0` test sits before the
      while loop only, so when the last pass ends in the middle of an update
      the loop goes on stepping; the next end of the list takes loops from 0
      to -1, which means no limit.  A forward clip of two models on its last
      pass, at model 1, given two intervals ends up playing for ever. */
  lemma LastPassOverrun(name: string, interval: real)
    requires interval != 0.0
    ensures var s := Stage(Playhead(1, 1, false), Some(Frame(name, 1)), {Frame(name, 1)});
      var r := Update(name, Clip(2, interval, 1, Forward), s, 2);
      !r.thrown && r.stage.head == Playhead(0, -1, false)
  {
    var c := Clip(2, interval, 1, Forward);
    var s := Stage(Playhead(1, 1, false), Some(Frame(name, 1)), {Frame(name, 1)});
    var s1 := Stage(Playhead(1, 0, false), Some(Frame(name, 1)), {Frame(name, 1)});
    assert s.active - {Frame(name, 1)} == {};
    assert Frames(name, c, s, 2) == Frames(name, c, s1, 1);
    assert s1.active - {Frame(name, 1)} == {};
  }

  /** The evidently intended update: once the loop count reaches zero the
      player stops on the model it is showing, within the same update too. */
  function FramesCorrected(name: string, c: Clip, s: Stage, ticks: nat): (r: Run)
    ensures s.head.loops == 0 ==> r == Run(s, false)
    ensures r.stage.head.loops <= s.head.loops
    decreases ticks
  {
    if ticks == 0 || s.head.loops == 0 then Run(s, false)
    else if !(0 <= s.head.index < c.count) then Run(s, true)
    else
      var hidden := s.active - {Frame(name, s.head.index)};
      var h := Advance(c, s.head);
      if !(0 <= h.index < c.count) then Run(Stage(h, s.current, hidden), true)
      else FramesCorrected(name, c, Stage(h, Some(Frame(name, h.index)), hidden + {Frame(name, h.index)}), ticks - 1)
  }

  function UpdateCorrected(name: string, c: Clip, s: Stage, ticks: nat): (r: Run)
    ensures c.interval == 0.0 ==> r == Run(s, false)
  {
    if c.interval == 0.0 then Run(s, false) else FramesCorrected(name, c, s, ticks)
  }

  /** With the correction a limited loop count never turns into "no limit":
      it stays between 0 and where it started. */
  lemma {:induction false} CorrectedLoopsBounded(name: string, c: Clip, s: Stage, ticks: nat)
    requires s.head.loops >= 0
    ensures 0 <= FramesCorrected(name, c, s, ticks).stage.head.loops <= s.head.loops
    decreases ticks
  {
    if ticks > 0 && s.head.loops != 0 && 0 <= s.head.index < c.count {
      var hidden := s.active - {Frame(name, s.head.index)};
      var h := Advance(c, s.head);
      if 0 <= h.index < c.count {
        CorrectedLoopsBounded(name, c, Stage(h, Some(Frame(name, h.index)), hidden + {Frame(name, h.index)}), ticks - 1);
      }
    }
  }

  /** The correction changes nothing for a clip without a loop limit. */
  lemma {:induction false} CorrectedAgreesUnlimited(name: string, c: Clip, s: Stage, ticks: nat)
    requires s.head.loops == -1
    ensures FramesCorrected(name, c, s, ticks) == Frames(name, c, s, ticks)
    decreases ticks
  {
    if ticks > 0 && 0 <= s.head.index < c.count {
      var hidden := s.active - {Frame(name, s.head.index)};
      var h := Advance(c, s.head);
      if 0 <= h.index < c.count {
        CorrectedAgreesUnlimited(name, c, Stage(h, Some(Frame(name, h.index)), hidden + {Frame(name, h.index)}), ticks - 1);
      }
    }
  }

  /** On the example of LastPassOverrun the corrected update stops at the end
      of the last pass, on model 1 with no loops left. */
  lemma LastPassCorrected(name: string, interval: real)
    requires interval != 0.0
    ensures var s := Stage(Playhead(1, 1, false), Some(Frame(name, 1)), {Frame(name, 1)});
      var r := UpdateCorrected(name, Clip(2, interval, 1, Forward), s, 2);
      !r.thrown && r.stage.head == Playhead(1, 0, false) && r.stage.active == {Frame(name, 1)}
  {
    var s := Stage(Playhead(1, 1, false), Some(Frame(name, 1)), {Frame(name, 1)});
    assert s.active - {Frame(name, 1)} == {};
  }
}
