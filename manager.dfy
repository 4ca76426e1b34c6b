/**
 * GameManagerScript: the effect list, the set of visual effects whose
 * start-then-stop task is outstanding, the audio transport (cursor, playing
 * flag, clip length), the reverb / echo filter switches, the applied skybox
 * tint and the Edit / Preview mode, with the per-frame Update that ties them
 * together.
 */
module Manager {
  import opened Wrappers
  import opened Effects
  import Clock

  datatype GameMode = Edit | Preview

  /** What comparing the mode seen at the start of a frame with the current mode calls for. */
  datatype ModeTransition = EnteredPreview | LeftPreview | NoTransition

  function Transition(previous: GameMode, current: GameMode): (r: ModeTransition)
    ensures r == NoTransition <==> previous == current
    ensures r == EnteredPreview <==> previous == Edit && current == Preview
    ensures r == LeftPreview <==> previous == Preview && current == Edit
  {
    match (previous, current)
    case (Edit, Preview) => EnteredPreview
    case (Preview, Edit) => LeftPreview
    case _ => NoTransition
  }

  /** The keys Update polls. */
  datatype Key =
    | FireworkKey | FireCircleKey | ReverbKey | EchoKey | BlueSkyboxKey | PinkSkyboxKey
    | SaveKey | LoadKey | ClearKey | PlayPauseKey

  /**
   * Everything one frame reads from outside: the keys pressed this frame, the
   * spawn positions the random firework / fire-circle actions derive, the files
   * the storage directory lists, and the seek offsets the scrubber and the
   * vertical axis ask for (None when that input is at rest).
   */
  datatype FrameInput = FrameInput(
    keys: set<Key>,
    fireworkPosition: Vector3,
    fireCirclePosition: Vector3,
    storedFiles: seq<StoredFile>,
    scrubOffset: Option<real>,
    axisOffset: Option<real>)

  /** A seek must land strictly after this many seconds. */
  const SeekLowerBound: real := 0.1

  /** Playback is stopped this many seconds before the end of the clip. */
  const EndGuard: real := 0.5

  const Origin: Vector3 := Vector3(0.0, 0.0, 0.0)

  /**
   * The cursor after one seek input: with an offset, the cursor moves by it
   * when it lands strictly inside (0.1, clipLength - 0.5), and stays otherwise.
   */
  function Seeked(t: real, offset: Option<real>, clipLength: real): (r: real)
    ensures offset.None? ==> r == t
    ensures r == t || SeekLowerBound < r < clipLength - EndGuard
    ensures offset.Some? && SeekLowerBound < t + offset.value < clipLength - EndGuard ==> r == t + offset.value
  {
    match offset
    case None => t
    case Some(o) => if SeekLowerBound < t + o < clipLength - EndGuard then t + o else t
  }

  /** The cursor after a frame's scrubber seek and then its vertical-axis seek. */
  function FrameCursor(t: real, input: FrameInput, clipLength: real): real
  {
    Seeked(Seeked(t, input.scrubOffset, clipLength), input.axisOffset, clipLength)
  }

  /** Seeks never take a non-negative cursor below zero. */
  lemma FrameCursorNonNegative(t: real, input: FrameInput, clipLength: real)
    requires 0.0 <= t
    ensures 0.0 <= FrameCursor(t, input, clipLength)
    ensures input.scrubOffset.None? && input.axisOffset.None? ==> FrameCursor(t, input, clipLength) == t
  {
  }

  /** `after` is `before` with one more record, holding payload d, at its end. */
  predicate AppendedOnto(before: seq<CreationElement>, after: seq<CreationElement>, d: EffectData)
  {
    |after| == |before| + 1 && after[..|before|] == before && after[|before|].Payload() == d
  }

  lemma PayloadsOfAppended(before: seq<CreationElement>, after: seq<CreationElement>, d: EffectData)
    requires AppendedOnto(before, after, d)
    ensures Payloads(after) == Payloads(before) + [d]
  {
    assert forall i :: 0 <= i < |before| ==> after[i] == before[i];
  }

  predicate IsAppendKey(k: Key)
  {
    k in {FireworkKey, FireCircleKey, ReverbKey, EchoKey, BlueSkyboxKey, PinkSkyboxKey}
  }

  /** The list after one authoring key: one more record when the key was pressed. */
  function AfterKey(list: seq<EffectData>, pressed: bool, d: EffectData): seq<EffectData>
  {
    if pressed then list + [d] else list
  }

  /** The list after the six append keys of one Edit-mode frame, in the order Update polls them. */
  function AfterAppendKeys(list: seq<EffectData>, input: FrameInput, t: real): seq<EffectData>
  {
    var keys := input.keys;
    var l1 := AfterKey(list, FireworkKey in keys, NewRecord(VFX, Firework, input.fireworkPosition, t));
    var l2 := AfterKey(l1, FireCircleKey in keys, NewRecord(VFX, FireCircle, input.fireCirclePosition, t));
    var l3 := AfterKey(l2, ReverbKey in keys, NewRecord(SFX, Reverb, Origin, t));
    var l4 := AfterKey(l3, EchoKey in keys, NewRecord(SFX, Echo, Origin, t));
    var l5 := AfterKey(l4, BlueSkyboxKey in keys, NewRecord(Skybox, BlueSkybox, Origin, t));
    AfterKey(l5, PinkSkyboxKey in keys, NewRecord(Skybox, PinkSkybox, Origin, t))
  }

  /**
   * The effect list, as payloads, after the authoring keys of one Edit-mode frame:
   * the appends, then a load that replaces the list, then a clear that empties it.
   */
  function AuthoredPayloads(list: seq<EffectData>, input: FrameInput, t: real): seq<EffectData>
  {
    if ClearKey in input.keys then []
    else if LoadKey in input.keys then PresentPayloads(input.storedFiles)
    else AfterAppendKeys(list, input, t)
  }

  /** Records that start 0.05 s after t and last their kind's duration. */
  predicate PlacedAt(ds: seq<EffectData>, from: int, t: real)
  {
    forall i :: 0 <= from <= i < |ds| ==>
      ds[i].startTime == t + 0.05 && ds[i].endTime == ds[i].startTime + Duration(ds[i].kind)
  }

  lemma AfterKeyAppends(list: seq<EffectData>, base: seq<EffectData>, pressed: bool, d: EffectData, t: real)
    requires |base| <= |list| && list[..|base|] == base && PlacedAt(list, |base|, t)
    requires pressed ==> d.startTime == t + 0.05 && d.endTime == d.startTime + Duration(d.kind)
    ensures var r := AfterKey(list, pressed, d);
      |list| <= |r| <= |list| + 1 && r[..|base|] == base && PlacedAt(r, |base|, t)
  {
    var r := AfterKey(list, pressed, d);
    if pressed {
      assert r[..|base|] == list[..|base|];
    }
  }

  /**
   * Without load or clear, authoring only appends: the old list stays a prefix,
   * at most one record per append key is added, each starting 0.05 s after the
   * cursor and lasting its kind's duration; a frame without append keys changes nothing.
   */
  lemma AuthoringOnlyAppends(list: seq<EffectData>, input: FrameInput, t: real)
    requires LoadKey !in input.keys && ClearKey !in input.keys
    ensures var r := AuthoredPayloads(list, input, t);
      && |list| <= |r| <= |list| + 6
      && r[..|list|] == list
      && PlacedAt(r, |list|, t)
    ensures (forall k :: k in input.keys ==> !IsAppendKey(k)) ==> AuthoredPayloads(list, input, t) == list
  {
    var keys := input.keys;
    var l1 := AfterKey(list, FireworkKey in keys, NewRecord(VFX, Firework, input.fireworkPosition, t));
    var l2 := AfterKey(l1, FireCircleKey in keys, NewRecord(VFX, FireCircle, input.fireCirclePosition, t));
    var l3 := AfterKey(l2, ReverbKey in keys, NewRecord(SFX, Reverb, Origin, t));
    var l4 := AfterKey(l3, EchoKey in keys, NewRecord(SFX, Echo, Origin, t));
    var l5 := AfterKey(l4, BlueSkyboxKey in keys, NewRecord(Skybox, BlueSkybox, Origin, t));
    AfterKeyAppends(list, list, FireworkKey in keys, NewRecord(VFX, Firework, input.fireworkPosition, t), t);
    AfterKeyAppends(l1, list, FireCircleKey in keys, NewRecord(VFX, FireCircle, input.fireCirclePosition, t), t);
    AfterKeyAppends(l2, list, ReverbKey in keys, NewRecord(SFX, Reverb, Origin, t), t);
    AfterKeyAppends(l3, list, EchoKey in keys, NewRecord(SFX, Echo, Origin, t), t);
    AfterKeyAppends(l4, list, BlueSkyboxKey in keys, NewRecord(Skybox, BlueSkybox, Origin, t), t);
    AfterKeyAppends(l5, list, PinkSkyboxKey in keys, NewRecord(Skybox, PinkSkybox, Origin, t), t);
    if forall k :: k in keys ==> !IsAppendKey(k) {
      assert FireworkKey !in keys && FireCircleKey !in keys && ReverbKey !in keys;
      assert EchoKey !in keys && BlueSkyboxKey !in keys && PinkSkyboxKey !in keys;
    }
  }

  /** A clear in the same frame wins over every append and over a load. */
  lemma ClearWins(list: seq<EffectData>, input: FrameInput, t: real)
    requires ClearKey in input.keys
    ensures AuthoredPayloads(list, input, t) == []
  {
  }

  /** A load without a clear replaces the list by the present files' payloads, whatever was appended before it. */
  lemma LoadReplaces(list: seq<EffectData>, input: FrameInput, t: real)
    requires LoadKey in input.keys && ClearKey !in input.keys
    ensures AuthoredPayloads(list, input, t) == PresentPayloads(input.storedFiles)
  {
  }

  class GameManager {
    /** The timeline, in insertion order. */
    var effectList: seq<CreationElement>
    /** Records whose start-then-stop task has started and not yet finished. */
    var effectsPlaying: set<CreationElement>
    /** The suspended start-then-stop tasks, oldest first; each will despawn its record's effect. */
    var vfxTasks: seq<CreationElement>
    /** The audio cursor, in seconds. */
    var time: real
    var playing: bool
    const clipLength: real
    var mode: GameMode
    var reverbEnabled: bool
    var echoEnabled: bool
    /** The skybox whose tint was applied last. */
    var skyboxTint: EffectName
    /** The "elapsed/total" clock text. */
    var timeText: string

    /**
     * The playing set is exactly the set of records with an outstanding task,
     * no record has two outstanding tasks, and only visual effects with a
     * spawn prefab have one; the cursor is never negative.
     */
    ghost predicate Valid()
      reads this`vfxTasks, this`effectsPlaying, this`time
    {
      && 0.0 <= time
      && (forall k, m :: 0 <= k < m < |vfxTasks| ==> vfxTasks[k] != vfxTasks[m])
      && (forall e :: e in effectsPlaying ==> e in vfxTasks)
      && (forall k :: 0 <= k < |vfxTasks| ==> vfxTasks[k] in effectsPlaying)
      && (forall e :: e in vfxTasks ==> e.kind == VFX && IsAnimated(e.effectName))
    }

    /**
     * The effect state the scans of a playing frame leave when they run at
     * cursor t: the tasks the visual-effect scan starts, the tint of the
     * resolved skybox when it names one, and each filter on exactly when a
     * covering SFX record with its name exists.
     */
    twostate predicate EffectsEvaluated(t: real)
      reads this`effectList, this`vfxTasks, this`effectsPlaying, this`skyboxTint, this`reverbEnabled, this`echoEnabled
    {
      && vfxTasks == old(vfxTasks) + VfxStarts(effectList, t, old(effectsPlaying))
      && effectsPlaying == old(effectsPlaying) + Members(VfxStarts(effectList, t, old(effectsPlaying)))
      && skyboxTint == (if IsSkyboxName(ResolveSkybox(effectList, t)) then ResolveSkybox(effectList, t)
                        else old(skyboxTint))
      && reverbEnabled == ToggleOn(effectList, t, Reverb)
      && echoEnabled == ToggleOn(effectList, t, Echo)
    }

    /** No task, playing-set, tint or filter change. */
    twostate predicate EffectsUnchanged()
      reads this`vfxTasks, this`effectsPlaying, this`skyboxTint, this`reverbEnabled, this`echoEnabled
    {
      && vfxTasks == old(vfxTasks) && effectsPlaying == old(effectsPlaying)
      && reverbEnabled == old(reverbEnabled) && echoEnabled == old(echoEnabled)
      && skyboxTint == old(skyboxTint)
    }

    /**
     * The records the authoring keys leave, by reference: without load or clear
     * the earlier records stay in place and every record after them is new;
     * after a load or a clear every record is new.
     */
    twostate predicate RecordsAuthored(keys: set<Key>)
      reads this`effectList
    {
      && (LoadKey !in keys && ClearKey !in keys ==>
            old(effectList) <= effectList && forall k :: |old(effectList)| <= k < |effectList| ==> fresh(effectList[k]))
      && (LoadKey in keys || ClearKey in keys ==> forall k :: 0 <= k < |effectList| ==> fresh(effectList[k]))
    }

    /** The state after Start(): both filters off, Edit mode, an empty timeline. */
    constructor (clipLength: real, playOnAwake: bool)
      ensures Valid()
      ensures this.clipLength == clipLength && mode == GameMode.Edit
      ensures effectList == [] && effectsPlaying == {} && vfxTasks == []
      ensures time == 0.0 && playing == playOnAwake
      ensures !reverbEnabled && !echoEnabled && skyboxTint == NeutralSkybox
    {
      this.clipLength := clipLength;
      effectList := [];
      effectsPlaying := {};
      vfxTasks := [];
      time := 0.0;
      playing := playOnAwake;
      mode := GameMode.Edit;
      reverbEnabled := false;
      echoEnabled := false;
      skyboxTint := NeutralSkybox;
      timeText := "";
    }

    // -------------------------------------------------------------------------
    // Transport

    method Play()
      modifies this`playing
      ensures playing
    {
      if !playing {
        playing := true;
      }
    }

    method Pause()
      modifies this`playing
      ensures !playing
    {
      if playing {
        playing := false;
      }
    }

    method Stop()
      requires Valid()
      modifies this`time, this`playing
      ensures Valid()
      ensures time == 0.0 && !playing
    {
      time := 0.0;
      playing := false;
    }

    /** The play/pause key. */
    method TogglePlayback()
      modifies this`playing
      ensures playing == !old(playing)
    {
      if !playing {
        playing := true;
      } else {
        playing := false;
      }
    }

    /** A seek lands only strictly between 0.1 s and half a second before the clip's end. */
    method Seek(seekTime: real)
      requires Valid()
      modifies this`time
      ensures Valid()
      ensures time == if SeekLowerBound < seekTime < clipLength - EndGuard then seekTime else old(time)
    {
      var almostAudioEnd := clipLength - EndGuard;
      if SeekLowerBound < seekTime && seekTime < almostAudioEnd {
        time := seekTime;
      }
    }

    /**
     * The audio engine moving the cursor on by dt seconds between two frames
     * while the clip plays; Update's end guard reacts to where it lands.
     */
    method Advance(dt: real)
      requires Valid() && playing && dt >= 0.0
      modifies this`time
      ensures Valid()
      ensures time == old(time) + dt
    {
      time := time + dt;
    }

    // -------------------------------------------------------------------------
    // Mode

    method Preview()
      modifies this`mode
      ensures mode == GameMode.Preview
    {
      mode := GameMode.Preview;
    }

    method Edit()
      modifies this`mode
      ensures mode == GameMode.Edit
    {
      mode := GameMode.Edit;
    }

    /** Entering Preview rewinds and plays; leaving it pauses. */
    method ApplyModeTransition(previous: GameMode)
      requires Valid()
      modifies this`time, this`playing
      ensures Valid()
      ensures Transition(previous, mode) == EnteredPreview ==> time == 0.0 && playing
      ensures Transition(previous, mode) == LeftPreview ==> time == old(time) && !playing
      ensures Transition(previous, mode) == NoTransition ==> time == old(time) && playing == old(playing)
    {
      match Transition(previous, mode)
      case EnteredPreview =>
        time := 0.0;
        playing := true;
      case LeftPreview =>
        playing := false;
      case NoTransition =>
    }

    // -------------------------------------------------------------------------
    // Authoring

    method AppendRecord(kind: EffectType, name: EffectName, position: Vector3)
      modifies this`effectList
      ensures AppendedOnto(old(effectList), effectList, NewRecord(kind, name, position, time))
      ensures Payloads(effectList) == Payloads(old(effectList)) + [NewRecord(kind, name, position, time)]
      ensures fresh(effectList[|effectList| - 1])
    {
      var element := new CreationElement(NewRecord(kind, name, position, time));
      effectList := effectList + [element];
      PayloadsOfAppended(old(effectList), effectList, element.Payload());
    }

    method ApplyFireworkVFX(position: Vector3)
      modifies this`effectList
      ensures AppendedOnto(old(effectList), effectList, NewRecord(VFX, Firework, position, time))
      ensures Payloads(effectList) == Payloads(old(effectList)) + [NewRecord(VFX, Firework, position, time)]
      ensures fresh(effectList[|effectList| - 1])
    {
      AppendRecord(VFX, Firework, position);
    }

    method ApplyFireCircleVFX(position: Vector3)
      modifies this`effectList
      ensures AppendedOnto(old(effectList), effectList, NewRecord(VFX, FireCircle, position, time))
      ensures Payloads(effectList) == Payloads(old(effectList)) + [NewRecord(VFX, FireCircle, position, time)]
      ensures fresh(effectList[|effectList| - 1])
    {
      AppendRecord(VFX, FireCircle, position);
    }

    method AppendEchoEffect()
      modifies this`effectList
      ensures AppendedOnto(old(effectList), effectList, NewRecord(SFX, Echo, Origin, time))
      ensures Payloads(effectList) == Payloads(old(effectList)) + [NewRecord(SFX, Echo, Origin, time)]
      ensures fresh(effectList[|effectList| - 1])
    {
      AppendRecord(SFX, Echo, Origin);
    }

    method AppendReverbEffect()
      modifies this`effectList
      ensures AppendedOnto(old(effectList), effectList, NewRecord(SFX, Reverb, Origin, time))
      ensures Payloads(effectList) == Payloads(old(effectList)) + [NewRecord(SFX, Reverb, Origin, time)]
      ensures fresh(effectList[|effectList| - 1])
    {
      AppendRecord(SFX, Reverb, Origin);
    }

    method AppendBlueSkyboxEffect()
      modifies this`effectList
      ensures AppendedOnto(old(effectList), effectList, NewRecord(Skybox, BlueSkybox, Origin, time))
      ensures Payloads(effectList) == Payloads(old(effectList)) + [NewRecord(Skybox, BlueSkybox, Origin, time)]
      ensures fresh(effectList[|effectList| - 1])
    {
      AppendRecord(Skybox, BlueSkybox, Origin);
    }

    method AppendPinkSkyboxEffect()
      modifies this`effectList
      ensures AppendedOnto(old(effectList), effectList, NewRecord(Skybox, PinkSkybox, Origin, time))
      ensures Payloads(effectList) == Payloads(old(effectList)) + [NewRecord(Skybox, PinkSkybox, Origin, time)]
      ensures fresh(effectList[|effectList| - 1])
    {
      AppendRecord(Skybox, PinkSkybox, Origin);
    }

    method Reset()
      modifies this`effectList
      ensures effectList == []
    {
      effectList := [];
    }

    /** Clears the timeline, then appends one fresh record per file that still exists, in listing order. */
    method LoadEffectList(files: seq<StoredFile>)
      modifies this`effectList
      ensures Payloads(effectList) == PresentPayloads(files)
      ensures forall k :: 0 <= k < |effectList| ==> fresh(effectList[k])
    {
      effectList := [];
      var i := 0;
      while i < |files|
        invariant 0 <= i <= |files|
        invariant Payloads(effectList) + PresentPayloads(files[i..]) == PresentPayloads(files)
        invariant forall k :: 0 <= k < |effectList| ==> fresh(effectList[k])
      {
        assert files[i..][1..] == files[i + 1..];
        if files[i].Present? {
          var element := new CreationElement(files[i].payload);
          ghost var before := effectList;
          effectList := effectList + [element];
          PayloadsOfAppended(before, effectList, element.Payload());
        }
        i := i + 1;
      }
      assert files[i..] == [];
    }

    /** The firework and fire-circle keys. */
    method HandleVfxKeys(input: FrameInput)
      modifies this`effectList
      ensures Payloads(effectList)
              == AfterKey(AfterKey(Payloads(old(effectList)), FireworkKey in input.keys, NewRecord(VFX, Firework, input.fireworkPosition, time)), FireCircleKey in input.keys, NewRecord(VFX, FireCircle, input.fireCirclePosition, time))
      ensures old(effectList) <= effectList
      ensures forall k :: |old(effectList)| <= k < |effectList| ==> fresh(effectList[k])
    {
      if FireworkKey in input.keys {
        ApplyFireworkVFX(input.fireworkPosition);
      }
      if FireCircleKey in input.keys {
        ApplyFireCircleVFX(input.fireCirclePosition);
      }
    }

    /** The reverb and echo keys. */
    method HandleSfxKeys(input: FrameInput)
      modifies this`effectList
      ensures Payloads(effectList)
              == AfterKey(AfterKey(Payloads(old(effectList)), ReverbKey in input.keys, NewRecord(SFX, Reverb, Origin, time)), EchoKey in input.keys, NewRecord(SFX, Echo, Origin, time))
      ensures old(effectList) <= effectList
      ensures forall k :: |old(effectList)| <= k < |effectList| ==> fresh(effectList[k])
    {
      if ReverbKey in input.keys {
        AppendReverbEffect();
      }
      if EchoKey in input.keys {
        AppendEchoEffect();
      }
    }

    /** The blue and pink skybox keys. */
    method HandleSkyboxKeys(input: FrameInput)
      modifies this`effectList
      ensures Payloads(effectList)
              == AfterKey(AfterKey(Payloads(old(effectList)), BlueSkyboxKey in input.keys, NewRecord(Skybox, BlueSkybox, Origin, time)), PinkSkyboxKey in input.keys, NewRecord(Skybox, PinkSkybox, Origin, time))
      ensures old(effectList) <= effectList
      ensures forall k :: |old(effectList)| <= k < |effectList| ==> fresh(effectList[k])
    {
      if BlueSkyboxKey in input.keys {
        AppendBlueSkyboxEffect();
      }
      if PinkSkyboxKey in input.keys {
        AppendPinkSkyboxEffect();
      }
    }

    /** The six append keys of an Edit-mode frame, in the order Update polls them. */
    method HandleAppendKeys(input: FrameInput)
      modifies this`effectList
      ensures Payloads(effectList) == AfterAppendKeys(Payloads(old(effectList)), input, time)
      ensures old(effectList) <= effectList
      ensures forall k :: |old(effectList)| <= k < |effectList| ==> fresh(effectList[k])
    {
      HandleVfxKeys(input);
      HandleSfxKeys(input);
      HandleSkyboxKeys(input);
    }

    /** The authoring keys of an Edit-mode frame: the appends, then save, load and clear. */
    method HandleAuthoringInput(input: FrameInput)
      modifies this`effectList
      ensures Payloads(effectList) == AuthoredPayloads(Payloads(old(effectList)), input, time)
      ensures RecordsAuthored(input.keys)
    {
      HandleAppendKeys(input);
      // SaveKey writes one file per record and leaves the model's state as it is.
      if LoadKey in input.keys {
        LoadEffectList(input.storedFiles);
      }
      if ClearKey in input.keys {
        Reset();
      }
    }

    // -------------------------------------------------------------------------
    // Evaluation

    /** One loop serving IsReverbEffectEnabled and IsEchoEffectEnabled: the first covering SFX record with the name answers. */
    method IsToggleEffectEnabled(name: EffectName) returns (enabled: bool)
      ensures enabled == ToggleOn(effectList, time, name)
    {
      var i := 0;
      while i < |effectList|
        invariant 0 <= i <= |effectList|
        invariant forall k :: 0 <= k < i ==> !CoveringToggle(effectList[k], time, name)
      {
        var effect := effectList[i];
        if !(effect.startTime <= time && time <= effect.endTime) {
          i := i + 1;
          continue;
        }
        if effect.kind == SFX && effect.effectName == name {
          return true;
        }
        i := i + 1;
      }
      return false;
    }

    method IsReverbEffectEnabled() returns (enabled: bool)
      ensures enabled == ToggleOn(effectList, time, Reverb)
    {
      enabled := IsToggleEffectEnabled(Reverb);
    }

    method IsEchoEffectEnabled() returns (enabled: bool)
      ensures enabled == ToggleOn(effectList, time, Echo)
    {
      enabled := IsToggleEffectEnabled(Echo);
    }

    /** The skybox scan: every covering Skybox record overwrites the running choice. */
    method ResolveSkyboxType() returns (skyboxType: EffectName)
      ensures skyboxType == ResolveSkybox(effectList, time)
    {
      skyboxType := NeutralSkybox;
      var i := 0;
      while i < |effectList|
        invariant 0 <= i <= |effectList|
        invariant skyboxType == ResolveSkybox(effectList[..i], time)
      {
        var effect := effectList[i];
        assert effectList[..i + 1][..i] == effectList[..i];
        if effect.startTime <= time && time <= effect.endTime {
          if effect.kind == Skybox {
            skyboxType := effect.effectName;
          }
        }
        i := i + 1;
      }
      assert effectList[..i] == effectList;
    }

    /** Only the three skybox names have a tint; any other name leaves the applied tint unchanged. */
    method ApplySkyboxTint(skyboxType: EffectName)
      modifies this`skyboxTint
      ensures skyboxTint == if IsSkyboxName(skyboxType) then skyboxType else old(skyboxTint)
    {
      if skyboxType == NeutralSkybox {
        skyboxTint := NeutralSkybox;
      } else if skyboxType == BlueSkybox {
        skyboxTint := BlueSkybox;
      } else if skyboxType == PinkSkybox {
        skyboxTint := PinkSkybox;
      }
    }

    /**
     * The start of a StartThenStopVFX task: the record joins the playing set and,
     * when its name has a prefab, the task spawns the effect and suspends. A name
     * without a prefab runs straight to the end, leaving the record out of the set.
     */
    method StartThenStopVFX(effect: CreationElement)
      requires Valid() && effect.kind == VFX && effect !in effectsPlaying
      modifies this`effectsPlaying, this`vfxTasks
      ensures Valid()
      ensures IsAnimated(effect.effectName) ==>
                effectsPlaying == old(effectsPlaying) + {effect} && vfxTasks == old(vfxTasks) + [effect]
      ensures !IsAnimated(effect.effectName) ==>
                effectsPlaying == old(effectsPlaying) && vfxTasks == old(vfxTasks)
    {
      effectsPlaying := effectsPlaying + {effect};
      if effect.effectName == Firework {
        vfxTasks := vfxTasks + [effect];
      } else if effect.effectName == FireCircle {
        vfxTasks := vfxTasks + [effect];
      } else {
        effectsPlaying := effectsPlaying - {effect};
      }
    }

    /** The end of the k-th outstanding task: the effect is despawned and its record leaves the playing set. */
    method FinishVFX(k: nat)
      requires Valid() && k < |vfxTasks|
      modifies this`effectsPlaying, this`vfxTasks
      ensures Valid()
      ensures vfxTasks == old(vfxTasks[..k] + vfxTasks[k + 1..])
      ensures effectsPlaying == old(effectsPlaying) - {old(vfxTasks[k])}
    {
      var effect := vfxTasks[k];
      vfxTasks := vfxTasks[..k] + vfxTasks[k + 1..];
      effectsPlaying := effectsPlaying - {effect};
      assert forall m :: 0 <= m < |vfxTasks| ==> vfxTasks[m] == old(vfxTasks)[if m < k then m else m + 1];
    }

    /** One iteration of the visual-effect scan, at index i of the list. */
    method VisitVFX(i: nat)
      requires Valid() && i < |effectList|
      modifies this`effectsPlaying, this`vfxTasks
      ensures Valid()
      ensures vfxTasks + VfxStarts(effectList[i + 1..], time, effectsPlaying)
              == old(vfxTasks) + VfxStarts(effectList[i..], time, old(effectsPlaying))
      ensures effectsPlaying + Members(VfxStarts(effectList[i + 1..], time, effectsPlaying))
              == old(effectsPlaying) + Members(VfxStarts(effectList[i..], time, old(effectsPlaying)))
    {
      var effect := effectList[i];
      ghost var rest := effectList[i + 1..];
      assert effectList[i..] == [effect] + rest;
      if effect.startTime <= time && time <= effect.endTime {
        if effect.kind == VFX && !(effect in effectsPlaying) {
          StartThenStopVFX(effect);
        }
      }
      VfxScanStepTasks(old(vfxTasks), old(effectsPlaying), effect, rest, time, vfxTasks, effectsPlaying);
      VfxScanStepPlaying(old(effectsPlaying), effect, rest, time, effectsPlaying);
    }

    /** The visual-effect scan: each covering VFX record not already playing starts a task. */
    method StartVFXTasks()
      requires Valid()
      modifies this`effectsPlaying, this`vfxTasks
      ensures Valid()
      ensures vfxTasks == old(vfxTasks) + VfxStarts(effectList, time, old(effectsPlaying))
      ensures effectsPlaying == old(effectsPlaying) + Members(VfxStarts(effectList, time, old(effectsPlaying)))
    {
      var i := 0;
      while i < |effectList|
        invariant 0 <= i <= |effectList|
        invariant Valid()
        invariant vfxTasks + VfxStarts(effectList[i..], time, effectsPlaying)
                  == old(vfxTasks) + VfxStarts(effectList, time, old(effectsPlaying))
        invariant effectsPlaying + Members(VfxStarts(effectList[i..], time, effectsPlaying))
                  == old(effectsPlaying) + Members(VfxStarts(effectList, time, old(effectsPlaying)))
      {
        VisitVFX(i);
        i := i + 1;
      }
    }

    /** The body of Update's `if playing` block. */
    method EvaluateEffects()
      requires Valid()
      modifies this`effectsPlaying, this`vfxTasks, this`skyboxTint, this`reverbEnabled, this`echoEnabled
      ensures Valid()
      ensures EffectsEvaluated(time)
    {
      StartVFXTasks();
      var skyboxType := ResolveSkyboxType();
      ApplySkyboxTint(skyboxType);
      reverbEnabled := IsReverbEffectEnabled();
      echoEnabled := IsEchoEffectEnabled();
    }

    // -------------------------------------------------------------------------
    // The frame

    /** The "elapsed/total" text, each part in whole seconds rounded down. */
    method UpdateTimeText()
      modifies this`timeText
      ensures timeText == Clock.SerializeSeconds(time.Floor) + "/" + Clock.SerializeSeconds(clipLength.Floor)
    {
      var numSecondsElapsed := time.Floor;
      var totalSeconds := clipLength.Floor;
      timeText := Clock.SerializeSeconds(numSecondsElapsed) + "/" + Clock.SerializeSeconds(totalSeconds);
    }

    /** Lines 105-132 of a frame: the play/pause key and the two seeks. */
    method HandleTransportInput(input: FrameInput)
      requires Valid()
      modifies this`time, this`playing
      ensures Valid()
      ensures playing == (old(playing) != (PlayPauseKey in input.keys))
      ensures time == FrameCursor(old(time), input, clipLength)
      ensures input.scrubOffset.None? && input.axisOffset.None? ==> time == old(time)
    {
      if PlayPauseKey in input.keys {
        TogglePlayback();
      }
      if input.scrubOffset.Some? {
        Seek(time + input.scrubOffset.value);
      }
      if input.axisOffset.Some? {
        Seek(time + input.axisOffset.value);
      }
    }

    /**
     * Lines 45-98 of a frame: the authoring keys in Edit mode, then the mode
     * comparison, which sees no transition since nothing here writes the mode.
     */
    method HandleEditInput(input: FrameInput)
      requires Valid()
      modifies this`effectList, this`time, this`playing
      ensures Valid()
      ensures mode == GameMode.Preview ==> effectList == old(effectList)
      ensures mode == GameMode.Edit ==> Payloads(effectList) == AuthoredPayloads(Payloads(old(effectList)), input, time)
      ensures mode == GameMode.Edit ==> RecordsAuthored(input.keys)
      ensures time == old(time) && playing == old(playing)
    {
      var previousGameMode := mode;
      if mode == GameMode.Edit {
        HandleAuthoringInput(input);
      }
      ApplyModeTransition(previousGameMode);
    }

    /** Lines 44-132 of a frame: authoring keys in Edit mode, the mode transition, the clock text, play/pause and the two seeks. */
    method HandleFrameInput(input: FrameInput)
      requires Valid()
      modifies this`effectList, this`time, this`playing, this`timeText
      ensures Valid()
      ensures old(mode) == GameMode.Preview ==> effectList == old(effectList)
      ensures old(mode) == GameMode.Edit ==> Payloads(effectList) == AuthoredPayloads(Payloads(old(effectList)), input, old(time))
      ensures old(mode) == GameMode.Edit ==> RecordsAuthored(input.keys)
      ensures timeText == Clock.SerializeSeconds(old(time).Floor) + "/" + Clock.SerializeSeconds(clipLength.Floor)
      ensures playing == (old(playing) != (PlayPauseKey in input.keys))
      ensures input.scrubOffset.None? && input.axisOffset.None? ==> time == old(time)
      ensures time == FrameCursor(old(time), input, clipLength)
    {
      HandleEditInput(input);
      UpdateTimeText();
      HandleTransportInput(input);
    }

    /** Lines 134-195 of a frame: the effect scans while playing, then the end-of-clip guard. */
    method EvaluateFrame()
      requires Valid()
      modifies this`effectsPlaying, this`vfxTasks, this`skyboxTint, this`reverbEnabled, this`echoEnabled
      modifies this`time, this`playing
      ensures Valid()
      ensures time < clipLength - EndGuard || (time == 0.0 && !playing)
      ensures old(time) < clipLength - EndGuard ==> time == old(time) && playing == old(playing)
      ensures old(time) >= clipLength - EndGuard ==> time == 0.0 && !playing
      ensures playing ==> EffectsEvaluated(time)
      ensures old(playing) ==> EffectsEvaluated(old(time))
      ensures !old(playing) ==> EffectsUnchanged()
    {
      if playing {
        EvaluateEffects();
      }
      if time >= clipLength - EndGuard {
        Stop();
      }
    }

    /**
     * One frame. Nothing in it writes the mode, so the mode comparison of lines
     * 87-98 always sees no transition and its side effects never run here.
     */
    method Update(input: FrameInput)
      requires Valid()
      modifies this
      ensures Valid()
      ensures mode == old(mode)
      ensures old(mode) == GameMode.Preview ==> effectList == old(effectList)
      ensures old(mode) == GameMode.Edit ==> Payloads(effectList) == AuthoredPayloads(Payloads(old(effectList)), input, old(time))
      ensures timeText == Clock.SerializeSeconds(old(time).Floor) + "/" + Clock.SerializeSeconds(clipLength.Floor)
      ensures time < clipLength - EndGuard || (time == 0.0 && !playing)
      ensures input.scrubOffset.None? && input.axisOffset.None? && old(time) < clipLength - EndGuard
              ==> time == old(time)
      ensures old(mode) == GameMode.Edit ==> RecordsAuthored(input.keys)
      ensures FrameCursor(old(time), input, clipLength) < clipLength - EndGuard ==>
                time == FrameCursor(old(time), input, clipLength) && playing == (old(playing) != (PlayPauseKey in input.keys))
      ensures FrameCursor(old(time), input, clipLength) >= clipLength - EndGuard ==> time == 0.0 && !playing
      ensures playing ==> EffectsEvaluated(time)
      ensures old(playing) != (PlayPauseKey in input.keys) ==> EffectsEvaluated(FrameCursor(old(time), input, clipLength))
      ensures old(playing) == (PlayPauseKey in input.keys) ==> EffectsUnchanged()
    {
      HandleFrameInput(input);
      EvaluateFrame();
    }
  }
}
