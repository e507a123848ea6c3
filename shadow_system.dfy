/** The older sprite shadow system: a singleton that keeps a list of
    shadow casters and, every frame, records one draw of each caster's
    renderer into the occlusion map. The list only exists once the system
    has been initialised, and initialisation runs at most once. */
module ShadowCasting {
  import opened Common
  import Registry

  /** A `VektorShadowCaster` component; `id` stands for its identity and
      `renderer` for the Unity renderer it draws with. */
  datatype Caster = Caster(id: nat, renderer: nat)

  /** The commands the system records into its command buffer. */
  datatype DrawCommand =
    | SetOcclusionTarget              // SetRenderTarget(_occlusionMap)
    | ClearToWhite                    // ClearRenderTarget(depth, colour, white)
    | DrawRenderer(renderer: nat, submesh: int, pass: int)

  /** The draw of one caster: its renderer, with the shadow material,
      sub-mesh 0 and every pass (-1). */
  function Draw(c: Caster): DrawCommand
  {
    DrawRenderer(c.renderer, 0, -1)
  }

  /** One draw per caster, in list order. */
  function Draws(cs: seq<Caster>): seq<DrawCommand>
  {
    if cs == [] then [] else Draws(cs[..|cs| - 1]) + [Draw(cs[|cs| - 1])]
  }

  /** The command buffer after a frame: target, clear, then the draws. */
  function FrameCommands(cs: seq<Caster>): seq<DrawCommand>
  {
    [SetOcclusionTarget, ClearToWhite] + Draws(cs)
  }

  /** There is exactly one draw per caster and draw `k` is caster `k`'s. */
  lemma {:induction false} DrawsAt(cs: seq<Caster>)
    ensures |Draws(cs)| == |cs|
    ensures forall k :: 0 <= k < |cs| ==> Draws(cs)[k] == Draw(cs[k])
    decreases |cs|
  {
    if cs != [] {
      var init := cs[..|cs| - 1];
      DrawsAt(init);
      assert forall k :: 0 <= k < |init| ==> init[k] == cs[k];
    }
  }

  /** A frame's commands set the target, clear it, and draw every
      registered caster once, in order, and nothing else. */
  lemma FrameCommandsShape(cs: seq<Caster>)
    ensures |FrameCommands(cs)| == |cs| + 2
    ensures FrameCommands(cs)[0] == SetOcclusionTarget && FrameCommands(cs)[1] == ClearToWhite
    ensures forall k :: 0 <= k < |cs| ==> FrameCommands(cs)[k + 2] == Draw(cs[k])
  {
    DrawsAt(cs);
  }

  /** `VektorLightingSystem` (the root namespace one): the caster list,
      null until `Initialize`, the one-shot flag, the occlusion map's size,
      how many times the command buffer was attached to the camera, and
      the command buffer itself. */
  class ShadowSystem {
    var casters: Option<seq<Caster>>
    var initialized: bool
    var mapWidth: nat
    var mapHeight: nat
    var attachments: nat
    var commands: seq<DrawCommand>

    /** The list exists exactly when the system is initialised, holds no
        caster twice, and the command buffer was attached to the camera
        once per initialisation, so at most once. */
    ghost predicate Valid()
      reads this
    {
      && (casters.Some? <==> initialized)
      && (casters.Some? ==> Registry.NoDup(casters.value))
      && attachments == if initialized then 1 else 0
    }

    /** `AddComponent<VektorLightingSystem>()`: nothing set up yet. */
    constructor ()
      ensures Valid() && !initialized && casters == None && commands == []
    {
      casters, initialized := None, false;
      mapWidth, mapHeight, attachments := 0, 0, 0;
      commands := [];
    }

    /** `Initialize`: the first call creates the empty list, sizes the
        occlusion map at half the screen, attaches the command buffer to
        the camera and sets the flag; every later call only warns. */
    method Initialize(screenWidth: nat, screenHeight: nat)
      requires Valid()
      modifies this
      ensures Valid() && initialized
      ensures old(initialized) ==>
                casters == old(casters) && mapWidth == old(mapWidth) && mapHeight == old(mapHeight)
                && attachments == old(attachments)
      ensures !old(initialized) ==>
                casters == Some([]) && mapWidth == screenWidth / 2 && mapHeight == screenHeight / 2
                && attachments == 1
      ensures commands == old(commands)
    {
      if initialized {
        // warning: initialisation called more than once
        return;
      }
      casters := Some([]);
      mapWidth, mapHeight := screenWidth / 2, screenHeight / 2;
      attachments := attachments + 1;
      initialized := true;
    }

    /** `AddShadowCaster`: a null caster throws, so does any caster before
        the list exists; otherwise the registry discipline applies. */
    method AddShadowCaster(caster: Option<Caster>) returns (error: Option<Error>)
      requires Valid()
      modifies this
      ensures Valid()
      ensures caster.None? ==> error == Some(ArgumentNull) && casters == old(casters)
      ensures caster.Some? && old(casters).None? ==> error == Some(NullList) && casters == old(casters)
      ensures caster.Some? && old(casters).Some? ==>
                match Registry.Add(old(casters).value, caster)
                case Ok(s) => error.None? && casters == Some(s)
                case Fail(e) => error == Some(e) && casters == old(casters)
      ensures initialized == old(initialized) && attachments == old(attachments) && commands == old(commands)
      ensures mapWidth == old(mapWidth) && mapHeight == old(mapHeight)
    {
      if caster.None? {
        return Some(ArgumentNull);
      }
      if casters.None? {
        return Some(NullList);
      }
      var list, c := casters.value, caster.value;
      if c in list {
        return Some(AlreadyAdded);
      }
      Registry.AddKeepsNoDup(list, caster);
      casters := Some(list + [c]);
      return None;
    }

    /** `RemoveShadowCaster`: the mirror image of `AddShadowCaster`. */
    method RemoveShadowCaster(caster: Option<Caster>) returns (error: Option<Error>)
      requires Valid()
      modifies this
      ensures Valid()
      ensures caster.None? ==> error == Some(ArgumentNull) && casters == old(casters)
      ensures caster.Some? && old(casters).None? ==> error == Some(NullList) && casters == old(casters)
      ensures caster.Some? && old(casters).Some? ==>
                match Registry.Remove(old(casters).value, caster)
                case Ok(s) => error.None? && casters == Some(s)
                case Fail(e) => error == Some(e) && casters == old(casters)
      ensures initialized == old(initialized) && attachments == old(attachments) && commands == old(commands)
      ensures mapWidth == old(mapWidth) && mapHeight == old(mapHeight)
    {
      if caster.None? {
        return Some(ArgumentNull);
      }
      if casters.None? {
        return Some(NullList);
      }
      var list, c := casters.value, caster.value;
      if c !in list {
        return Some(NotAdded);
      }
      Registry.RemoveKeepsNoDup(list, caster);
      casters := Some(Registry.RemoveFirst(list, c));
      return None;
    }

    /** `Update`: nothing before initialisation; afterwards the command
        buffer is cleared and refilled for this frame. */
    method Update()
      requires Valid()
      modifies this
      ensures Valid()
      ensures !initialized ==> commands == old(commands)
      ensures initialized ==> commands == FrameCommands(casters.value)
      ensures casters == old(casters) && initialized == old(initialized)
      ensures attachments == old(attachments) && mapWidth == old(mapWidth) && mapHeight == old(mapHeight)
    {
      if !initialized {
        return;
      }
      var cs := casters.value;
      var cmds := [];
      cmds := cmds + [SetOcclusionTarget];
      cmds := cmds + [ClearToWhite];
      for i := 0 to |cs|
        invariant cmds == [SetOcclusionTarget, ClearToWhite] + Draws(cs[..i])
      {
        assert cs[..i + 1][..i] == cs[..i];
        cmds := cmds + [DrawRenderer(cs[i].renderer, 0, -1)];
      }
      assert cs[..|cs|] == cs;
      commands := cmds;
    }
  }

  /** The static `Instance` slot of the shadow system. */
  class Singleton {
    var instance: ShadowSystem?

    constructor ()
      ensures instance == null
    {
      instance := null;
    }

    /** `InitializeSingleton`: an existing instance is left alone (with a
        warning); otherwise a new system is created and initialised. */
    method InitializeSingleton(screenWidth: nat, screenHeight: nat)
      requires instance != null ==> instance.Valid()
      modifies this
      ensures old(instance) != null ==> instance == old(instance)
      ensures old(instance) == null ==>
                instance != null && fresh(instance) && instance.Valid() && instance.initialized
                && instance.casters == Some([]) && instance.attachments == 1
      ensures instance != null && instance.Valid()
    {
      if instance != null {
        // warning: duplicate lighting system
        return;
      }
      var system := new ShadowSystem();
      system.Initialize(screenWidth, screenHeight);
      instance := system;
    }
  }
}
