/** The player component itself (class AnimateScript,
    unity3d/AnimateScript.cs:110-275): its fields change in place as `set`
    switches animations and `update_animation` steps frames. */
module AnimateScripts {
  import opened Wrappers
  import opened Animation

  class AnimateScript {
    var enabled: bool
    /** anim_instances after initialize(): one instance per animation name. */
    const instances: map<string, Clip>
    /** The playing instance, by the name it was set under; None is null. */
    var anim: Option<string>
    var animName: string
    var animationIndex: int
    var loops: int
    var reversed: bool
    var current: Option<Frame>
    /** The models currently active in the scene. */
    var active: set<Frame>

    /** The instance in play is one of the instances. */
    ghost predicate Valid()
      reads this
    {
      anim.Some? ==> anim.value in instances
    }

    function Head(): Playhead
      reads this
    {
      Playhead(animationIndex, loops, reversed)
    }

    function Staged(): Stage
      reads this
    {
      Stage(Head(), current, active)
    }

    /** The display invariant of the component: nothing shown before the first
      `set`, and afterwards exactly the model the playhead is on. */
    ghost predicate Displayed()
      reads this
    {
      Valid() &&
      match anim
      case None => current == None && active == {}
      case Some(name) => 0 <= animationIndex < instances[name].count && Shows(name, Staged())
    }

    /** A fresh component after initialize(): every model instantiated inactive. */
    constructor (enabled: bool, instances: map<string, Clip>)
      ensures Valid() && Displayed()
      ensures this.enabled == enabled && this.instances == instances
      ensures anim == None && animationIndex == 0 && loops == -1 && !reversed
    {
      this.enabled := enabled;
      this.instances := instances;
      anim := None;
      animName := "";
      animationIndex := 0;
      loops := -1;
      reversed := false;
      current := None;
      active := {};
    }

    /** on_loop (unity3d/AnimateScript.cs:187-210); its argument is
        overwritten on every path that uses it, so it is not modelled. */
    method HandleLoop()
      requires Valid() && anim.Some?
      modifies this
      ensures anim == old(anim) && current == old(current) && active == old(active)
      ensures Head() == OnLoop(instances[old(anim).value], old(Head()))
      ensures enabled == old(enabled) && animName == old(animName)
    {
      var clip := instances[anim.value];
      if loops != -1 {
        loops := loops - 1;
        if loops == 0 {
          return;
        }
      }
      match clip.kind {
        case Forward =>
          animationIndex := 0;
        case PingPong =>
          reversed := !reversed;
          if reversed {
            animationIndex := clip.count - 2;
          } else {
            animationIndex := 1;
          }
      }
    }

    /** update_animation (unity3d/AnimateScript.cs:212-234), when the elapsed
        time covers `ticks` whole intervals.  With no instance set, reading
        anim.interval raises NullReferenceException. */
    method UpdateAnimation(ticks: nat) returns (thrown: bool)
      requires Valid()
      modifies this
      ensures anim == old(anim) && enabled == old(enabled) && animName == old(animName)
      ensures anim == None ==> thrown && Staged() == old(Staged())
      ensures anim.Some? ==> Run(Staged(), thrown) == Update(anim.value, instances[anim.value], old(Staged()), ticks)
      ensures old(Displayed()) && anim.Some? && Playable(instances[anim.value]) ==> !thrown && Displayed()
    {
      if anim == None {
        return true;
      }
      var name := anim.value;
      var clip := instances[name];
      if clip.interval == 0.0 {
        return false;
      }
      if loops == 0 {
        return false;
      }
      ghost var before := Staged();
      thrown := PlayFrames(name, clip, ticks);
      if old(Displayed()) && Playable(clip) {
        UpdatePlayable(name, clip, before, ticks);
      }
    }

    /** The while loop of update_animation (unity3d/AnimateScript.cs:219-233):
        `ticks` passes, each ending early on an out-of-range index. */
    method PlayFrames(name: string, clip: Clip, ticks: nat) returns (thrown: bool)
      requires Valid() && anim == Some(name) && clip == instances[name]
      modifies this
      ensures Valid() && anim == old(anim) && enabled == old(enabled) && animName == old(animName)
      ensures Run(Staged(), thrown) == Frames(name, clip, old(Staged()), ticks)
    {
      var i := 0;
      while i < ticks
        invariant 0 <= i <= ticks
        invariant Valid() && anim == Some(name) && enabled == old(enabled) && animName == old(animName)
        invariant Frames(name, clip, Staged(), ticks - i) == Frames(name, clip, old(Staged()), ticks)
      {
        thrown := StepFrame(name, clip, ticks - i);
        if thrown {
          return;
        }
        i := i + 1;
      }
      return false;
    }

    /** One pass of the while loop of update_animation
        (unity3d/AnimateScript.cs:220-232), with n passes still to go. */
    method StepFrame(name: string, clip: Clip, ghost n: nat) returns (thrown: bool)
      requires Valid() && anim == Some(name) && clip == instances[name] && n >= 1
      modifies this
      ensures Valid() && anim == old(anim) && enabled == old(enabled) && animName == old(animName)
      ensures thrown ==> Run(Staged(), true) == Frames(name, clip, old(Staged()), n)
      ensures !thrown ==> Frames(name, clip, Staged(), n - 1) == Frames(name, clip, old(Staged()), n)
    {
      if !(0 <= animationIndex < clip.count) {
        return true;
      }
      active := active - {Frame(name, animationIndex)};
      var newIndex := if reversed then animationIndex - 1 else animationIndex + 1;
      if newIndex >= clip.count || newIndex < 0 {
        HandleLoop();
      } else {
        animationIndex := newIndex;
      }
      if !(0 <= animationIndex < clip.count) {
        return true;
      }
      current := Some(Frame(name, animationIndex));
      active := active + {Frame(name, animationIndex)};
      return false;
    }

    /** set (unity3d/AnimateScript.cs:256-274): a disabled component ignores
        it, an unknown name raises KeyNotFoundException, the playing name is
        kept as it is; otherwise the shown model is hidden and the new
        instance starts at model 0 with its own loop count, which raises when
        the instance has no models. */
    method Set(name: string) returns (thrown: bool)
      requires Valid()
      modifies this
      ensures Valid() && enabled == old(enabled)
      ensures !old(enabled) ==> !thrown && Staged() == old(Staged()) && anim == old(anim) && animName == old(animName)
      ensures old(enabled) && name !in instances ==>
        thrown && Staged() == old(Staged()) && anim == old(anim) && animName == old(animName)
      ensures old(enabled) && old(anim) == Some(name) ==>
        !thrown && Staged() == old(Staged()) && anim == old(anim) && animName == old(animName)
      ensures old(enabled) && name in instances && old(anim) != Some(name) &&
              (old(anim) == None || 0 <= old(animationIndex) < instances[old(anim).value].count) ==>
        anim == Some(name) && animName == name && Head() == Playhead(0, instances[name].loops, false) &&
        var hidden := if old(anim) == None then old(active) else old(active) - {Frame(old(anim).value, old(animationIndex))};
        if instances[name].count == 0 then thrown && current == old(current) && active == hidden
        else !thrown && current == Some(Frame(name, 0)) && active == hidden + {Frame(name, 0)}
      ensures old(enabled) && name in instances && old(anim).Some? && old(anim) != Some(name) &&
              !(0 <= old(animationIndex) < instances[old(anim).value].count) ==>
        thrown && Staged() == old(Staged()) && anim == old(anim) && animName == old(animName)
      ensures old(Displayed()) && old(enabled) && name in instances && instances[name].count > 0 ==>
        !thrown && Displayed() && anim == Some(name)
    {
      if !enabled {
        return false;
      }
      if name !in instances {
        return true;
      }
      if anim == Some(name) {
        return false;
      }
      if anim.Some? {
        var playing := instances[anim.value];
        if !(0 <= animationIndex < playing.count) {
          return true;
        }
        active := active - {Frame(anim.value, animationIndex)};
      }
      anim := Some(name);
      animName := name;
      loops := instances[name].loops;
      animationIndex := 0;
      reversed := false;
      if instances[name].count == 0 {
        return true;
      }
      current := Some(Frame(name, 0));
      active := active + {Frame(name, 0)};
      return false;
    }
  }
}
