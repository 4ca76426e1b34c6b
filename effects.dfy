/**
 * Effect records (CreationElement) and the read-only scans the per-frame
 * evaluation makes over the ordered effect list: the inclusive covering test,
 * the last-wins skybox resolution, the OR over reverb / echo records, and the
 * set of visual effects a frame starts.
 */
module Effects {

  datatype EffectType = VFX | Skybox | SFX

  datatype EffectName = Firework | FireCircle | NeutralSkybox | BlueSkybox | PinkSkybox | Reverb | Echo

  /** A spawn position; the model never computes with it. */
  datatype Vector3 = Vector3(x: real, y: real, z: real)

  /** The field values of one record, as its persisted payload carries them. */
  datatype EffectData = EffectData(
    kind: EffectType,
    effectName: EffectName,
    position: Vector3,
    startTime: real,
    endTime: real)

  /**
   * One timed effect placement. Records are compared by reference, as the
   * playing set does, and never change after they are built.
   */
  class CreationElement {
    const kind: EffectType
    const effectName: EffectName
    const position: Vector3
    const startTime: real
    const endTime: real

    constructor (data: EffectData)
      ensures Payload() == data
    {
      kind := data.kind;
      effectName := data.effectName;
      position := data.position;
      startTime := data.startTime;
      endTime := data.endTime;
    }

    function Payload(): EffectData
    {
      EffectData(kind, effectName, position, startTime, endTime)
    }
  }

  function Payloads(list: seq<CreationElement>): (ps: seq<EffectData>)
    ensures |ps| == |list| && forall i :: 0 <= i < |list| ==> ps[i] == list[i].Payload()
  {
    seq(|list|, i requires 0 <= i < |list| => list[i].Payload())
  }

  /** The records a sequence holds, as a set. */
  function Members(list: seq<CreationElement>): set<CreationElement>
  {
    set e | e in list
  }

  // ---------------------------------------------------------------------------
  // Authoring: the record a key press places

  /** Seconds between the cursor and the start of a freshly placed record. */
  const CreationOffset: real := 0.05

  function Duration(kind: EffectType): real
  {
    if kind == VFX then 2.0 else 1.5
  }

  /** The record an authoring action places when the cursor is at t. */
  function NewRecord(kind: EffectType, name: EffectName, position: Vector3, t: real): EffectData
  {
    EffectData(kind, name, position, t + CreationOffset, t + CreationOffset + Duration(kind))
  }

  /**
   * A placed record's window is 2 s long for visual effects and 1.5 s otherwise;
   * it starts strictly after the placement time and covers every instant from
   * placement plus the offset to its end.
   */
  lemma NewRecordWindow(kind: EffectType, name: EffectName, position: Vector3, t: real, u: real)
    ensures var d := NewRecord(kind, name, position, t);
      && d.endTime - d.startTime == (if kind == VFX then 2.0 else 1.5)
      && t < d.startTime
      && (d.startTime <= u <= d.endTime <==> t + 0.05 <= u <= t + 0.05 + Duration(kind))
  {
  }

  // ---------------------------------------------------------------------------
  // The covering test shared by all scans

  /** A record covers t when t lies in its closed window. */
  predicate Covers(e: CreationElement, t: real)
  {
    e.startTime <= t && t <= e.endTime
  }

  lemma CoversBothEnds(e: CreationElement)
    requires e.startTime <= e.endTime
    ensures Covers(e, e.startTime) && Covers(e, e.endTime)
    ensures forall t :: Covers(e, t) <==> e.startTime <= t <= e.endTime
  {
  }

  // ---------------------------------------------------------------------------
  // Skybox resolution

  predicate CoveringSkybox(e: CreationElement, t: real)
  {
    Covers(e, t) && e.kind == Skybox
  }

  /** Index i holds the last Skybox record of the list that covers t. */
  predicate IsLastCoveringSkybox(list: seq<CreationElement>, t: real, i: int)
  {
    && 0 <= i < |list|
    && CoveringSkybox(list[i], t)
    && forall j :: i < j < |list| ==> !CoveringSkybox(list[j], t)
  }

  /** The skybox the frame scan settles on: a later covering record overrides an earlier one. */
  function ResolveSkybox(list: seq<CreationElement>, t: real): EffectName
  {
    if list == [] then NeutralSkybox
    else if CoveringSkybox(list[|list| - 1], t) then list[|list| - 1].effectName
    else ResolveSkybox(list[..|list| - 1], t)
  }

  /**
   * The resolved skybox is the name on the last covering Skybox record, and
   * NeutralSkybox when no Skybox record covers t.
   */
  lemma {:induction false} ResolveSkyboxIsLastCovering(list: seq<CreationElement>, t: real)
    ensures (forall i :: 0 <= i < |list| ==> !CoveringSkybox(list[i], t)) ==> ResolveSkybox(list, t) == NeutralSkybox
    ensures forall i :: IsLastCoveringSkybox(list, t, i) ==> ResolveSkybox(list, t) == list[i].effectName
  {
    if list != [] {
      var init := list[..|list| - 1];
      ResolveSkyboxIsLastCovering(init, t);
      forall i | IsLastCoveringSkybox(list, t, i)
        ensures ResolveSkybox(list, t) == list[i].effectName
      {
        if i < |list| - 1 {
          assert IsLastCoveringSkybox(init, t, i);
        }
      }
    }
  }

  /** Conversely, a resolved name other than the default comes from a covering Skybox record. */
  lemma {:induction false} ResolveSkyboxOrigin(list: seq<CreationElement>, t: real)
    ensures ResolveSkybox(list, t) == NeutralSkybox
         || exists i :: IsLastCoveringSkybox(list, t, i) && list[i].effectName == ResolveSkybox(list, t)
  {
    if list != [] {
      var init := list[..|list| - 1];
      if !CoveringSkybox(list[|list| - 1], t) {
        ResolveSkyboxOrigin(init, t);
        if ResolveSkybox(init, t) != NeutralSkybox {
          var i :| IsLastCoveringSkybox(init, t, i) && init[i].effectName == ResolveSkybox(init, t);
          assert IsLastCoveringSkybox(list, t, i);
        }
      } else {
        assert IsLastCoveringSkybox(list, t, |list| - 1);
      }
    }
  }

  /** The names that select a tint; any other name leaves the current tint in place. */
  predicate IsSkyboxName(name: EffectName)
  {
    name == NeutralSkybox || name == BlueSkybox || name == PinkSkybox
  }

  // ---------------------------------------------------------------------------
  // Reverb and echo

  predicate CoveringToggle(e: CreationElement, t: real, name: EffectName)
  {
    Covers(e, t) && e.kind == SFX && e.effectName == name
  }

  /** Some SFX record named `name` covers t. */
  predicate ToggleOn(list: seq<CreationElement>, t: real, name: EffectName)
  {
    exists i :: 0 <= i < |list| && CoveringToggle(list[i], t, name)
  }

  /** The toggle state of a concatenation is the OR of the parts' states. */
  lemma ToggleOnConcat(a: seq<CreationElement>, b: seq<CreationElement>, t: real, name: EffectName)
    ensures ToggleOn(a + b, t, name) <==> ToggleOn(a, t, name) || ToggleOn(b, t, name)
  {
    if ToggleOn(a + b, t, name) {
      var i :| 0 <= i < |a + b| && CoveringToggle((a + b)[i], t, name);
      if i >= |a| {
        assert CoveringToggle(b[i - |a|], t, name);
      }
    }
    if ToggleOn(a, t, name) {
      var i :| 0 <= i < |a| && CoveringToggle(a[i], t, name);
      assert (a + b)[i] == a[i];
    }
    if ToggleOn(b, t, name) {
      var i :| 0 <= i < |b| && CoveringToggle(b[i], t, name);
      assert (a + b)[|a| + i] == b[i];
    }
  }

  /** A record with the same field values as one already present changes no toggle. */
  lemma ToggleOnDuplicate(list: seq<CreationElement>, e: CreationElement, j: int, t: real, name: EffectName)
    requires 0 <= j < |list| && list[j].Payload() == e.Payload()
    ensures ToggleOn(list + [e], t, name) == ToggleOn(list, t, name)
  {
    ToggleOnConcat(list, [e], t, name);
    if CoveringToggle(e, t, name) {
      assert CoveringToggle(list[j], t, name);
    }
  }

  /** Reverb and echo are independent: a record of any other name leaves a toggle as it was. */
  lemma ToggleOnIndependent(list: seq<CreationElement>, e: CreationElement, t: real, name: EffectName)
    requires e.effectName != name || e.kind != SFX
    ensures ToggleOn(list + [e], t, name) == ToggleOn(list, t, name)
  {
    ToggleOnConcat(list, [e], t, name);
    assert !ToggleOn([e], t, name);
  }

  // ---------------------------------------------------------------------------
  // Visual effects started in a frame

  /** The visual effects that have a spawn prefab, and so an outstanding task. */
  predicate IsAnimated(name: EffectName)
  {
    name == Firework || name == FireCircle
  }

  /** A record the frame scan hands to a task that then stays outstanding. */
  predicate StartsVfx(e: CreationElement, t: real)
  {
    Covers(e, t) && e.kind == VFX && IsAnimated(e.effectName)
  }

  /**
   * The records, in list order, for which one frame starts a task that stays
   * outstanding, when `active` holds the records already playing. Each start adds
   * its record to the playing set before the scan moves on.
   */
  function VfxStarts(list: seq<CreationElement>, t: real, active: set<CreationElement>): (r: seq<CreationElement>)
    ensures forall k :: 0 <= k < |r| ==> r[k] in list && StartsVfx(r[k], t) && r[k] !in active
    ensures forall k, m :: 0 <= k < m < |r| ==> r[k] != r[m]
    ensures forall e :: e in list && StartsVfx(e, t) ==> e in active || e in r
    decreases |list|
  {
    if list == [] then []
    else
      var e := list[0];
      if StartsVfx(e, t) && e !in active then [e] + VfxStarts(list[1..], t, active + {e})
      else VfxStarts(list[1..], t, active)
  }

  /** One step of the scan: the head record is considered first, then the rest. */
  lemma VfxStartsCons(e: CreationElement, rest: seq<CreationElement>, t: real, active: set<CreationElement>)
    ensures VfxStarts([e] + rest, t, active)
            == if StartsVfx(e, t) && e !in active then [e] + VfxStarts(rest, t, active + {e})
               else VfxStarts(rest, t, active)
  {
    assert ([e] + rest)[1..] == rest;
  }

  lemma MembersCons(e: CreationElement, rest: seq<CreationElement>)
    ensures Members([e] + rest) == {e} + Members(rest)
  {
  }

  /**
   * One step of the scan over [e] + rest: when e starts, the outstanding tasks
   * gain e; otherwise they stay; either way what is outstanding plus what the
   * rest of the scan starts is the same.
   */
  lemma VfxScanStepTasks(tasks: seq<CreationElement>, playing: set<CreationElement>, e: CreationElement,
                         rest: seq<CreationElement>, t: real,
                         tasks': seq<CreationElement>, playing': set<CreationElement>)
    requires StartsVfx(e, t) && e !in playing ==> tasks' == tasks + [e] && playing' == playing + {e}
    requires !(StartsVfx(e, t) && e !in playing) ==> tasks' == tasks && playing' == playing
    ensures tasks' + VfxStarts(rest, t, playing') == tasks + VfxStarts([e] + rest, t, playing)
  {
    VfxStartsCons(e, rest, t, playing);
    var later := VfxStarts(rest, t, playing');
    if StartsVfx(e, t) && e !in playing {
      assert tasks' + later == tasks + ([e] + later);
    }
  }

  /** The same step for the playing set: it gains e exactly when e starts. */
  lemma VfxScanStepPlaying(playing: set<CreationElement>, e: CreationElement,
                           rest: seq<CreationElement>, t: real, playing': set<CreationElement>)
    requires StartsVfx(e, t) && e !in playing ==> playing' == playing + {e}
    requires !(StartsVfx(e, t) && e !in playing) ==> playing' == playing
    ensures playing' + Members(VfxStarts(rest, t, playing')) == playing + Members(VfxStarts([e] + rest, t, playing))
  {
    VfxStartsCons(e, rest, t, playing);
    var later := VfxStarts(rest, t, playing');
    if StartsVfx(e, t) && e !in playing {
      MembersCons(e, later);
    }
  }

  /** A record whose task is still outstanding is never started again. */
  lemma PlayingNotRestarted(list: seq<CreationElement>, t: real, active: set<CreationElement>, e: CreationElement)
    requires e in active
    ensures e !in VfxStarts(list, t, active)
  {
  }

  /** Once its task has finished, a record that covers t is started again. */
  lemma FinishedIsRestarted(list: seq<CreationElement>, t: real, active: set<CreationElement>, e: CreationElement)
    requires e in list && StartsVfx(e, t) && e !in active
    ensures e in VfxStarts(list, t, active)
  {
  }

  // ---------------------------------------------------------------------------
  // Loading

  /** One entry of the storage directory: a file that vanished, or the payload it holds. */
  datatype StoredFile = Missing | Present(payload: EffectData)

  /** The payloads a load appends, in enumeration order, skipping missing files. */
  function PresentPayloads(files: seq<StoredFile>): seq<EffectData>
  {
    if files == [] then []
    else (if files[0].Present? then [files[0].payload] else []) + PresentPayloads(files[1..])
  }

  function MissingCount(files: seq<StoredFile>): nat
  {
    if files == [] then 0 else (if files[0].Missing? then 1 else 0) + MissingCount(files[1..])
  }

  /** A load keeps one record per present file: a missing file costs exactly one record. */
  lemma {:induction false} PresentPayloadsCount(files: seq<StoredFile>)
    ensures |PresentPayloads(files)| == |files| - MissingCount(files)
    ensures forall d :: d in PresentPayloads(files) <==> Present(d) in files
  {
    if files != [] {
      PresentPayloadsCount(files[1..]);
      assert files == [files[0]] + files[1..];
    }
  }

  /** Storing each payload in a file of its own and loading them back gives the same payloads, in storage order. */
  lemma {:induction false} PresentPayloadsRoundTrip(ps: seq<EffectData>)
    ensures PresentPayloads(seq(|ps|, i requires 0 <= i < |ps| => Present(ps[i]))) == ps
  {
    var files := seq(|ps|, i requires 0 <= i < |ps| => Present(ps[i]));
    if ps != [] {
      assert files[1..] == seq(|ps[1..]|, i requires 0 <= i < |ps[1..]| => Present(ps[1..][i]));
      PresentPayloadsRoundTrip(ps[1..]);
    }
  }
}
