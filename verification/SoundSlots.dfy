/**
 Reference counting of soundboard clips. Trigger threads reserve a clip slot and queue an event;
 the audio thread turns events into voices and plays them; a reload replaces clips that nobody
 uses. Every method below is one atomic step of one thread: the bank mutex covers reservations and
 a whole reload, the queue mutex covers an enqueue, and the audio thread's steps are single events
 and single voices.
 */
module SoundSlots {
  import opened Basics

  const SLOTS: nat := 64
  const QUEUE_CAP: nat := 128
  const VOICES: nat := 64

  datatype Clip = Clip(loaded: bool, name: string, frames: nat, channels: nat, sampleRate: nat, pcm: seq<int>)

  const CLEARED: Clip := Clip(false, "", 0, 0, 0, [])

  datatype Event = Event(slot: nat, hold: bool, pitchRatio: real)

  datatype Voice = Voice(active: bool, hold: bool, slot: nat, channels: nat, frames: nat, sampleRate: nat,
                         pos: nat, frac: real, pitchRatio: real, startedAt: nat)

  const OUTPUT_RATE: nat := 48000

  /** A reload holds the bank mutex; its target is the slot it is about to fill from a file. */
  datatype Bank = Unlocked | Reloading(seen: set<nat>) | Filling(seen: set<nat>, target: nat, name: string)

  /** A file of the directory; its clip is not loaded if the file cannot be read. */
  datatype WavFile = WavFile(name: string, clip: Clip)

  /** A slot found by name, what it held then, and whether a reload has met it unused since. */
  datatype Look = Look(name: string, slot: nat, clip: Clip, idle: bool)

  /** A sound that was asked for by name, its slot, and what the slot held when it was reserved. */
  datatype Trigger = Trigger(name: string, slot: nat, clip: Clip)

  // ------------------------------------------------------------------------------------------
  // Uses of a slot.

  function Queued(queue: seq<Event>, from: nat, end: nat, slot: nat): nat
    requires |queue| == QUEUE_CAP && from <= end
    decreases end - from
  {
    if from == end then 0
    else Queued(queue, from, end - 1, slot) + if queue[(end - 1) % QUEUE_CAP].slot == slot then 1 else 0
  }

  function Playing(voices: seq<Voice>, slot: nat): nat {
    if voices == [] then 0
    else
      var last := voices[|voices| - 1];
      Playing(voices[..|voices| - 1], slot) + if last.active && last.slot == slot then 1 else 0
  }

  /** Triggers that have reserved a slot and not queued their event yet. */
  function Held(held: seq<Trigger>, slot: nat): nat {
    if held == [] then 0
    else Held(held[..|held| - 1], slot) + if held[|held| - 1].slot == slot then 1 else 0
  }

  lemma {:induction false} HeldWithout(held: seq<Trigger>, k: nat, slot: nat)
    requires k < |held|
    ensures Held(held, slot) == Held(held[..k] + held[k + 1..], slot) + if held[k].slot == slot then 1 else 0
  {
    var n := |held| - 1;
    if k == n {
      assert held[..k] + held[k + 1..] == held[..n];
    } else {
      HeldWithout(held[..n], k, slot);
      var rest := held[..k] + held[k + 1..];
      assert rest[..|rest| - 1] == held[..n][..k] + held[..n][k + 1..];
      assert rest[|rest| - 1] == held[n];
    }
  }

  lemma {:induction false} HeldCounts(held: seq<Trigger>, k: nat)
    requires k < |held|
    ensures Held(held, held[k].slot) >= 1
  {
    HeldWithout(held, k, held[k].slot);
  }

  lemma {:induction false} QueuedCounts(queue: seq<Event>, from: nat, end: nat, k: nat)
    requires |queue| == QUEUE_CAP && from <= k < end
    ensures Queued(queue, from, end, queue[k % QUEUE_CAP].slot) >= 1
    decreases end - from
  {
    if k < end - 1 {
      QueuedCounts(queue, from, end - 1, k);
    }
  }

  function Use(v: Voice, slot: nat): nat {
    if v.active && v.slot == slot then 1 else 0
  }

  lemma {:induction false} QueuedFirst(queue: seq<Event>, from: nat, end: nat, slot: nat)
    requires |queue| == QUEUE_CAP && from < end
    ensures Queued(queue, from, end, slot) ==
            Queued(queue, from + 1, end, slot) + (if queue[from % QUEUE_CAP].slot == slot then 1 else 0)
    decreases end - from
  {
    if from + 1 < end {
      QueuedFirst(queue, from, end - 1, slot);
    }
  }

  lemma IndicesApart(i: nat, j: nat)
    requires i < j < i + QUEUE_CAP
    ensures i % QUEUE_CAP != j % QUEUE_CAP
  {
  }

  /** Filling the next entry changes nothing that is still queued. */
  lemma {:induction false} QueuedFrame(queue: seq<Event>, from: nat, end: nat, write: nat, ev: Event, slot: nat)
    requires |queue| == QUEUE_CAP && from <= end <= write < from + QUEUE_CAP
    ensures Queued(queue[write % QUEUE_CAP := ev], from, end, slot) == Queued(queue, from, end, slot)
    decreases end - from
  {
    if from < end {
      QueuedFrame(queue, from, end - 1, write, ev, slot);
      IndicesApart(end - 1, write);
    }
  }

  lemma {:induction false} PlayingUpdate(voices: seq<Voice>, i: nat, v: Voice, slot: nat)
    requires i < |voices|
    ensures Playing(voices[i := v], slot) + Use(voices[i], slot) == Playing(voices, slot) + Use(v, slot)
  {
    var n := |voices| - 1;
    if i == n {
      assert voices[i := v][..n] == voices[..n];
    } else {
      assert voices[i := v][..n] == voices[..n][i := v];
      PlayingUpdate(voices[..n], i, v, slot);
    }
  }

  lemma {:induction false} PlayingCounts(voices: seq<Voice>, i: nat)
    requires i < |voices| && voices[i].active
    ensures Playing(voices, voices[i].slot) >= 1
  {
    if i < |voices| - 1 {
      PlayingCounts(voices[..|voices| - 1], i);
    }
  }

  lemma {:induction false} NonePlaying(voices: seq<Voice>, slot: nat)
    requires forall i :: 0 <= i < |voices| ==> !voices[i].active
    ensures Playing(voices, slot) == 0
  {
    if voices != [] {
      NonePlaying(voices[..|voices| - 1], slot);
    }
  }

  // ------------------------------------------------------------------------------------------
  // The invariant.

  /** Each count is the reserved, queued and playing uses of its slot. */
  ghost predicate Balanced(refs: seq<nat>, held: seq<Trigger>, queue: seq<Event>, from: nat, end: nat, voices: seq<Voice>) {
    && |refs| == SLOTS && |queue| == QUEUE_CAP && from <= end
    && forall i :: 0 <= i < SLOTS ==> refs[i] == Held(held, i) + Queued(queue, from, end, i) + Playing(voices, i)
  }

  /** From its reservation until its voice ends, a trigger's slot holds the clip it held when it was reserved. */
  ghost predicate Carried(slots: seq<Clip>, held: seq<Trigger>, queue: seq<Event>, from: nat, end: nat, queued: seq<Trigger>,
                          voices: seq<Voice>, sounding: seq<Trigger>)
  {
    && |slots| == SLOTS && |queue| == QUEUE_CAP && from <= end == |queued| && |voices| == |sounding|
    && (forall k :: 0 <= k < |held| ==> held[k].slot < SLOTS && slots[held[k].slot] == held[k].clip)
    && (forall k :: from <= k < end ==>
          queued[k].slot == queue[k % QUEUE_CAP].slot && queued[k].slot < SLOTS && slots[queued[k].slot] == queued[k].clip)
    && (forall i :: 0 <= i < |voices| && voices[i].active ==>
          sounding[i].slot == voices[i].slot && sounding[i].slot < SLOTS && slots[sounding[i].slot] == sounding[i].clip)
  }

  /** As long as no reload has met the slot unused, it holds what was found. */
  predicate Found(slots: seq<Clip>, looks: seq<Look>) {
    && |slots| == SLOTS
    && forall k :: 0 <= k < |looks| ==>
         looks[k].slot < SLOTS && looks[k].clip.loaded && looks[k].clip.name == looks[k].name &&
         (!looks[k].idle ==> slots[looks[k].slot] == looks[k].clip)
  }

  /** A reload goes over the bank. */
  function Met(looks: seq<Look>, refs: seq<nat>): (met: seq<Look>)
    ensures |met| == |looks|
    ensures forall k :: 0 <= k < |looks| ==>
              met[k] == looks[k].(idle := looks[k].idle || (looks[k].slot < |refs| && refs[looks[k].slot] == 0))
  {
    seq(|looks|, k requires 0 <= k < |looks| => looks[k].(idle := looks[k].idle || (looks[k].slot < |refs| && refs[looks[k].slot] == 0)))
  }

  lemma MetTwice(looks: seq<Look>, refs: seq<nat>)
    ensures Met(Met(looks, refs), refs) == Met(looks, refs)
  {
  }

  predicate Playable(clip: Clip) {
    clip.loaded && clip.frames > 0 && clip.sampleRate > 0 && (clip.channels == 1 || clip.channels == 2)
  }

  /** A playing voice agrees with its clip and its index stays inside it. */
  predicate VoiceOk(v: Voice, slots: seq<Clip>) {
    v.active ==>
      && v.slot < |slots| && Playable(slots[v.slot])
      && v.frames == slots[v.slot].frames && v.channels == slots[v.slot].channels && v.sampleRate == slots[v.slot].sampleRate
      && v.pos < v.frames && 0.0 <= v.frac < 1.0 && v.pitchRatio > 0.0
  }

  predicate ClipOk(clip: Clip) {
    clip.loaded ==> |clip.pcm| == clip.frames * clip.channels
  }

  /** Nobody uses a slot whose count is zero. */
  lemma UnusedSlot(refs: seq<nat>, held: seq<Trigger>, queue: seq<Event>, from: nat, end: nat, voices: seq<Voice>, slot: nat)
    requires Balanced(refs, held, queue, from, end, voices) && slot < SLOTS && refs[slot] == 0
    ensures forall i :: 0 <= i < |voices| && voices[i].active ==> voices[i].slot != slot
    ensures forall k :: 0 <= k < |held| ==> held[k].slot != slot
    ensures forall k :: from <= k < end ==> queue[k % QUEUE_CAP].slot != slot
  {
    forall i | 0 <= i < |voices| && voices[i].active
      ensures voices[i].slot != slot
    {
      if voices[i].slot == slot {
        PlayingCounts(voices, i);
      }
    }
    forall k | 0 <= k < |held|
      ensures held[k].slot != slot
    {
      HeldCounts(held, k);
    }
    forall k | from <= k < end
      ensures queue[k % QUEUE_CAP].slot != slot
    {
      QueuedCounts(queue, from, end, k);
    }
  }

  // ------------------------------------------------------------------------------------------
  // What each step does to the counts.

  lemma ReservedBalanced(refs: seq<nat>, held: seq<Trigger>, queue: seq<Event>, from: nat, end: nat, voices: seq<Voice>, t: Trigger)
    requires Balanced(refs, held, queue, from, end, voices) && t.slot < SLOTS
    ensures Balanced(refs[t.slot := refs[t.slot] + 1], held + [t], queue, from, end, voices)
  {
    assert (held + [t])[..|held|] == held;
  }

  lemma QueuedBalanced(refs: seq<nat>, held: seq<Trigger>, queue: seq<Event>, from: nat, end: nat, voices: seq<Voice>, k: nat, ev: Event)
    requires Balanced(refs, held, queue, from, end, voices) && k < |held| && held[k].slot == ev.slot && end < from + QUEUE_CAP
    ensures Balanced(refs, held[..k] + held[k + 1..], queue[end % QUEUE_CAP := ev], from, end + 1, voices)
  {
    forall i | 0 <= i < SLOTS
      ensures refs[i] == Held(held[..k] + held[k + 1..], i) + Queued(queue[end % QUEUE_CAP := ev], from, end + 1, i) + Playing(voices, i)
    {
      HeldWithout(held, k, i);
      QueuedFrame(queue, from, end, end, ev, i);
    }
  }

  lemma DroppedBalanced(refs: seq<nat>, held: seq<Trigger>, queue: seq<Event>, from: nat, end: nat, voices: seq<Voice>, k: nat)
    requires Balanced(refs, held, queue, from, end, voices) && k < |held| && held[k].slot < SLOTS
    ensures var slot := held[k].slot;
            refs[slot] >= 1 && Balanced(Released(refs, slot), held[..k] + held[k + 1..], queue, from, end, voices)
  {
    var slot := held[k].slot;
    HeldCounts(held, k);
    forall i | 0 <= i < SLOTS
      ensures Held(held, i) == Held(held[..k] + held[k + 1..], i) + if i == slot then 1 else 0
    {
      HeldWithout(held, k, i);
    }
  }

  lemma StoppedBalanced(refs: seq<nat>, held: seq<Trigger>, queue: seq<Event>, from: nat, end: nat, voices: seq<Voice>, i: nat)
    requires Balanced(refs, held, queue, from, end, voices) && i < |voices| && voices[i].active && voices[i].slot < SLOTS
    ensures Balanced(Released(refs, voices[i].slot), held, queue, from, end, voices[i := voices[i].(active := false, hold := false)])
  {
    var v := voices[i].(active := false, hold := false);
    PlayingCounts(voices, i);
    forall s | 0 <= s < SLOTS
      ensures Playing(voices[i := v], s) + Use(voices[i], s) == Playing(voices, s)
    {
      PlayingUpdate(voices, i, v, s);
    }
  }

  lemma MovedBalanced(refs: seq<nat>, held: seq<Trigger>, queue: seq<Event>, from: nat, end: nat, voices: seq<Voice>, i: nat, v: Voice)
    requires Balanced(refs, held, queue, from, end, voices) && i < |voices|
    requires v.active == voices[i].active && v.slot == voices[i].slot
    ensures Balanced(refs, held, queue, from, end, voices[i := v])
  {
    forall s | 0 <= s < SLOTS
      ensures Playing(voices[i := v], s) == Playing(voices, s)
    {
      PlayingUpdate(voices, i, v, s);
    }
  }

  lemma DrainedBalanced(refs: seq<nat>, held: seq<Trigger>, queue: seq<Event>, from: nat, end: nat, voices: seq<Voice>)
    requires Balanced(refs, held, queue, from, end, voices) && from < end && queue[from % QUEUE_CAP].slot < SLOTS
    ensures Balanced(Released(refs, queue[from % QUEUE_CAP].slot), held, queue, from + 1, end, voices)
  {
    forall s | 0 <= s < SLOTS
      ensures Queued(queue, from, end, s) == Queued(queue, from + 1, end, s) + if queue[from % QUEUE_CAP].slot == s then 1 else 0
    {
      QueuedFirst(queue, from, end, s);
    }
  }

  lemma StartedBalanced(refs: seq<nat>, held: seq<Trigger>, queue: seq<Event>, from: nat, end: nat, voices: seq<Voice>, i: nat, v: Voice)
    requires Balanced(refs, held, queue, from, end, voices) && from < end && i < |voices| && !voices[i].active
    requires v.active && v.slot == queue[from % QUEUE_CAP].slot
    ensures Balanced(refs, held, queue, from + 1, end, voices[i := v])
  {
    forall s | 0 <= s < SLOTS
      ensures Queued(queue, from, end, s) + Playing(voices, s) == Queued(queue, from + 1, end, s) + Playing(voices[i := v], s)
    {
      QueuedFirst(queue, from, end, s);
      PlayingUpdate(voices, i, v, s);
    }
  }

  // ------------------------------------------------------------------------------------------
  // Names and reloads.

  function FirstNamed(slots: seq<Clip>, name: string, from: nat): (slot: Option<nat>)
    requires from <= |slots|
    ensures slot.Some? ==> from <= slot.value < |slots| && slots[slot.value].loaded && slots[slot.value].name == name
    ensures slot.None? ==> forall i :: from <= i < |slots| ==> !(slots[i].loaded && slots[i].name == name)
    decreases |slots| - from
  {
    if from == |slots| then None
    else if slots[from].loaded && slots[from].name == name then Some(from)
    else FirstNamed(slots, name, from + 1)
  }

  /** The first slot that holds a clip of this name. */
  function LookedUp(slots: seq<Clip>, name: string): Option<nat> {
    if name == "" then None else FirstNamed(slots, name, 0)
  }

  /** The slot held the clip that was asked for when it was reserved. */
  predicate Asked(t: Trigger) {
    t.clip.loaded && t.clip.name == t.name
  }

  datatype Target = InUse(slot: nat) | Into(slot: nat) | NoRoom

  function FirstFree(slots: seq<Clip>, refs: seq<nat>, from: nat): (slot: Option<nat>)
    requires from <= |slots| == |refs|
    ensures slot.Some? ==> from <= slot.value < |slots| && !slots[slot.value].loaded && refs[slot.value] == 0
    decreases |slots| - from
  {
    if from == |slots| then None
    else if !slots[from].loaded && refs[from] == 0 then Some(from)
    else FirstFree(slots, refs, from + 1)
  }

  /** The slot for a file: the one that holds it, unless that is in use, or else the first free one. */
  function TargetOf(slots: seq<Clip>, refs: seq<nat>, name: string): (t: Target)
    requires |slots| == |refs|
    ensures t.InUse? ==> t.slot < |slots| && refs[t.slot] > 0
    ensures t.Into? ==> t.slot < |slots| && refs[t.slot] == 0
  {
    match LookedUp(slots, name)
    case Some(i) => if refs[i] > 0 then InUse(i) else Into(i)
    case None =>
      match FirstFree(slots, refs, 0)
      case Some(i) => Into(i)
      case None => NoRoom
  }

  /** The bank in the course of a reload, and the slots whose files have been met. */
  datatype Progress = Progress(slots: seq<Clip>, seen: set<nat>)

  function FileLoaded(p: Progress, refs: seq<nat>, file: WavFile): (q: Progress)
    requires |p.slots| == |refs|
    ensures |q.slots| == |refs|
  {
    match TargetOf(p.slots, refs, file.name)
    case InUse(i) => p.(seen := p.seen + {i})
    case NoRoom => p
    case Into(i) =>
      if file.clip.loaded then Progress(p.slots[i := file.clip], p.seen + {i}) else p.(slots := p.slots[i := CLEARED])
  }

  function FilesLoaded(p: Progress, refs: seq<nat>, files: seq<WavFile>): (q: Progress)
    requires |p.slots| == |refs|
    ensures |q.slots| == |refs|
  {
    if files == [] then p
    else FileLoaded(FilesLoaded(p, refs, files[..|files| - 1]), refs, files[|files| - 1])
  }

  /** Clears what the directory no longer has, except clips that are still in use. */
  function Swept(p: Progress, refs: seq<nat>): (slots: seq<Clip>)
    requires |p.slots| == |refs|
    ensures |slots| == |refs|
  {
    seq(|refs|, i requires 0 <= i < |refs| => if p.slots[i].loaded && i !in p.seen && refs[i] == 0 then CLEARED else p.slots[i])
  }

  /** The bank after a reload from a directory. */
  function Reloaded(slots: seq<Clip>, refs: seq<nat>, files: seq<WavFile>): seq<Clip>
    requires |slots| == |refs|
  {
    Swept(FilesLoaded(Progress(slots, {}), refs, files), refs)
  }

  /** An unused slot may be cleared or filled. */
  lemma ReplacedCarried(slots: seq<Clip>, refs: seq<nat>, held: seq<Trigger>, queue: seq<Event>, from: nat, end: nat, queued: seq<Trigger>,
                        voices: seq<Voice>, sounding: seq<Trigger>, slot: nat, clip: Clip)
    requires Balanced(refs, held, queue, from, end, voices) && slot < SLOTS && refs[slot] == 0
    requires Carried(slots, held, queue, from, end, queued, voices, sounding)
    ensures Carried(slots[slot := clip], held, queue, from, end, queued, voices, sounding)
    ensures forall i :: 0 <= i < |voices| && VoiceOk(voices[i], slots) ==> VoiceOk(voices[i], slots[slot := clip])
  {
    hide Balanced;
    UnusedSlot(refs, held, queue, from, end, voices, slot);
  }

  /** A reload that replaces an unused slot's clip has met that slot. */
  lemma MetFound(slots: seq<Clip>, refs: seq<nat>, looks: seq<Look>, slot: nat, clip: Clip)
    requires Found(slots, looks) && |refs| == SLOTS && slot < SLOTS && refs[slot] == 0
    ensures Found(slots, Met(looks, refs)) && Found(slots[slot := clip], Met(looks, refs))
  {
  }

  lemma ReservedCarried(slots: seq<Clip>, held: seq<Trigger>, queue: seq<Event>, from: nat, end: nat, queued: seq<Trigger>,
                        voices: seq<Voice>, sounding: seq<Trigger>, t: Trigger)
    requires Carried(slots, held, queue, from, end, queued, voices, sounding) && t.slot < SLOTS && slots[t.slot] == t.clip
    ensures Carried(slots, held + [t], queue, from, end, queued, voices, sounding)
  {
  }

  lemma DroppedCarried(slots: seq<Clip>, held: seq<Trigger>, queue: seq<Event>, from: nat, end: nat, queued: seq<Trigger>,
                       voices: seq<Voice>, sounding: seq<Trigger>, k: nat)
    requires Carried(slots, held, queue, from, end, queued, voices, sounding) && k < |held|
    ensures Carried(slots, held[..k] + held[k + 1..], queue, from, end, queued, voices, sounding)
  {
  }

  lemma StoppedCarried(slots: seq<Clip>, held: seq<Trigger>, queue: seq<Event>, from: nat, end: nat, queued: seq<Trigger>,
                       voices: seq<Voice>, sounding: seq<Trigger>, i: nat, v: Voice)
    requires Carried(slots, held, queue, from, end, queued, voices, sounding) && i < |voices|
    requires v.active ==> voices[i].active && v.slot == voices[i].slot
    ensures Carried(slots, held, queue, from, end, queued, voices[i := v], sounding)
  {
  }

  lemma DrainedCarried(slots: seq<Clip>, held: seq<Trigger>, queue: seq<Event>, from: nat, end: nat, queued: seq<Trigger>,
                       voices: seq<Voice>, sounding: seq<Trigger>)
    requires Carried(slots, held, queue, from, end, queued, voices, sounding) && from < end
    ensures Carried(slots, held, queue, from + 1, end, queued, voices, sounding)
    ensures var t := queued[from]; t.slot == queue[from % QUEUE_CAP].slot && t.slot < |slots| && slots[t.slot] == t.clip
  {
  }

  lemma StartedCarried(slots: seq<Clip>, held: seq<Trigger>, queue: seq<Event>, from: nat, end: nat, queued: seq<Trigger>,
                       voices: seq<Voice>, sounding: seq<Trigger>, i: nat, v: Voice)
    requires Carried(slots, held, queue, from, end, queued, voices, sounding) && from < end && i < |voices|
    requires v.slot == queue[from % QUEUE_CAP].slot
    ensures Carried(slots, held, queue, from + 1, end, queued, voices[i := v], sounding[i := queued[from]])
  {
  }

  lemma QueuedCarried(slots: seq<Clip>, held: seq<Trigger>, queue: seq<Event>, from: nat, end: nat, queued: seq<Trigger>,
                      voices: seq<Voice>, sounding: seq<Trigger>, k: nat, ev: Event)
    requires Carried(slots, held, queue, from, end, queued, voices, sounding)
    requires k < |held| && held[k].slot == ev.slot && end < from + QUEUE_CAP
    ensures Carried(slots, held[..k] + held[k + 1..], queue[end % QUEUE_CAP := ev], from, end + 1, queued + [held[k]], voices, sounding)
    ensures forall j :: from <= j < end ==> queue[end % QUEUE_CAP := ev][j % QUEUE_CAP] == queue[j % QUEUE_CAP]
  {
    forall j | from <= j < end
      ensures queue[end % QUEUE_CAP := ev][j % QUEUE_CAP] == queue[j % QUEUE_CAP]
    {
      IndicesApart(j, end);
    }
  }

  lemma InsideClip(clip: Clip, pos: nat)
    requires ClipOk(clip) && Playable(clip) && pos < clip.frames
    ensures pos * clip.channels < |clip.pcm|
  {
  }

  function Released(refs: seq<nat>, slot: nat): seq<nat> {
    if slot >= |refs| || refs[slot] == 0 then refs else refs[slot := refs[slot] - 1]
  }

  predicate Takeable(voices: seq<Voice>, forHold: bool) {
    exists i :: 0 <= i < |voices| && (forHold || !voices[i].hold)
  }

  /** The held voice, if there is one, is stopped. */
  function HoldStopped(voices: seq<Voice>, holdVoice: int): seq<Voice> {
    if 0 <= holdVoice < |voices| && voices[holdVoice].active
    then voices[holdVoice := voices[holdVoice].(active := false, hold := false)] else voices
  }

  /** A silent voice if there is one, else the oldest of those that may be taken, else the oldest of all. */
  predicate Chosen(voices: seq<Voice>, forHold: bool, i: nat) {
    i < |voices| &&
    (voices[i].active ==>
       && (forall k :: 0 <= k < |voices| ==> voices[k].active)
       && (Takeable(voices, forHold) ==> forHold || !voices[i].hold)
       && forall k :: 0 <= k < |voices| && (Takeable(voices, forHold) ==> forHold || !voices[k].hold) ==>
            voices[i].startedAt <= voices[k].startedAt)
  }

  function ClampPitch(ratio: real): real {
    if ratio <= 0.0 then 1.0 else if ratio < 0.125 then 0.125 else if ratio > 8.0 then 8.0 else ratio
  }

  /** Where a voice is in its clip, in frames. */
  function Position(v: Voice): real {
    v.pos as real + v.frac
  }

  /** How far a voice moves in its clip for every frame of output. */
  function PlaybackStep(v: Voice): real {
    v.sampleRate as real / OUTPUT_RATE as real * ClampPitch(v.pitchRatio)
  }

  lemma StepForward(v: Voice)
    requires v.sampleRate > 0
    ensures PlaybackStep(v) > 0.0
  {
    var rate := v.sampleRate as real / OUTPUT_RATE as real;
    assert rate > 0.0 && ClampPitch(v.pitchRatio) > 0.0;
  }

  /** Where the voice will be after so many frames of output. */
  function Place(v: Voice, n: nat): real {
    Position(v) + PlaybackStep(v) * n as real
  }

  lemma PlaceFirst(v: Voice)
    requires v.pos < v.frames && v.frac < 1.0
    ensures Place(v, 0) == Position(v) < v.frames as real
  {
  }

  /** No more steps than this fit into the clip. */
  ghost function MostSteps(v: Voice): int
    requires v.sampleRate > 0
  {
    StepForward(v);
    ((v.frames as real - Position(v)) / PlaybackStep(v)).Floor + 1
  }

  lemma PlaceNext(v: Voice, n: nat)
    requires v.sampleRate > 0
    ensures Place(v, n + 1) == Place(v, n) + PlaybackStep(v)
    ensures Place(v, n) < v.frames as real ==> n < MostSteps(v)
  {
    hide PlaybackStep, Position;
    StepForward(v);
    var d, left := PlaybackStep(v), v.frames as real - Position(v);
    assert d * (n + 1) as real == d * n as real + d;
    if Place(v, n) < v.frames as real {
      assert n as real < left / d;
    }
  }

  /** A voice moves by the ratio of the rates times its pitch, which is kept between an eighth and eight. */
  lemma PaceIs(v: Voice)
    ensures 0.125 <= v.pitchRatio <= 8.0 ==> PlaybackStep(v) * 48000.0 == v.sampleRate as real * v.pitchRatio
    ensures v.pitchRatio <= 0.0 ==> PlaybackStep(v) * 48000.0 == v.sampleRate as real
    ensures 0.0 < v.pitchRatio < 0.125 ==> PlaybackStep(v) * 48000.0 == v.sampleRate as real * 0.125
    ensures v.pitchRatio > 8.0 ==> PlaybackStep(v) * 48000.0 == v.sampleRate as real * 8.0
  {
  }

  /** At its own rate and pitch a clip plays sample by sample, each once and in order. */
  lemma AtOwnPace(clip: Clip, v: Voice, samples: seq<real>)
    requires v.pos == 0 && v.frac == 0.0 && v.sampleRate == 48000 && v.pitchRatio == 1.0 && v.frames > 0 && |samples| > 0
    requires Place(v, |samples| - 1) < v.frames as real <= Place(v, |samples|)
    requires forall k :: 0 <= k < |samples| ==> PlayedAt(clip, v, Place(v, k), samples[k])
    ensures |samples| == v.frames
    ensures forall k :: 0 <= k < |samples| ==> 0 <= k * v.channels < |clip.pcm| && 32768.0 * samples[k] == clip.pcm[k * v.channels] as real * 0.35
  {
    hide PlayedAt;
    assert forall k: nat :: Place(v, k) == k as real by {
      UnitPlace(v);
    }
    hide Place;
    forall k | 0 <= k < |samples|
      ensures 0 <= k * v.channels < |clip.pcm| && 32768.0 * samples[k] == clip.pcm[k * v.channels] as real * 0.35
    {
      assert PlayedAt(clip, v, Place(v, k), samples[k]);
      PlayedWhole(clip, v, k, samples[k]);
    }
  }

  lemma UnitPlace(v: Voice)
    requires v.pos == 0 && v.frac == 0.0 && v.sampleRate == 48000 && v.pitchRatio == 1.0
    ensures forall k: nat :: Place(v, k) == k as real
  {
    assert PlaybackStep(v) == 1.0;
  }

  lemma PlayedWhole(clip: Clip, v: Voice, k: nat, sample: real)
    requires PlayedAt(clip, v, k as real, sample)
    ensures 0 <= k * v.channels < |clip.pcm| && 32768.0 * sample == clip.pcm[k * v.channels] as real * 0.35
  {
    assert (k as real).Floor == k;
  }

  /** One step of a playing voice: further in its clip, or past the end and silent. */
  predicate Moved(v: Voice, w: Voice) {
    && (w.active <==> Position(v) + PlaybackStep(v) < v.frames as real)
    && (w.active ==> w == v.(pos := w.pos, frac := w.frac) && Position(w) == Position(v) + PlaybackStep(v) && 0.0 <= w.frac < 1.0)
  }

  function Total(parts: seq<real>): real {
    if parts == [] then 0.0 else Total(parts[..|parts| - 1]) + parts[|parts| - 1]
  }

  /** The sample is the clip's at this place, blended from the frames on both sides of it. */
  ghost predicate PlayedAt(clip: Clip, v: Voice, at: real, sample: real) {
    var pos := at.Floor;
    var after := if pos + 1 < v.frames then pos + 1 else pos;
    && 0 <= pos * v.channels < |clip.pcm| && 0 <= after * v.channels < |clip.pcm|
    && 32768.0 * sample ==
       (clip.pcm[pos * v.channels] as real + (clip.pcm[after * v.channels] - clip.pcm[pos * v.channels]) as real * (at - pos as real)) * 0.35
  }

  lemma BlendedHere(clip: Clip, v: Voice, w: Voice, sample: real)
    requires w == v.(pos := w.pos, frac := w.frac) && 0.0 <= w.frac < 1.0
    requires var after := if w.pos + 1 < w.frames then w.pos + 1 else w.pos;
             && w.pos * w.channels < |clip.pcm| && after * w.channels < |clip.pcm|
             && 32768.0 * sample ==
                (clip.pcm[w.pos * w.channels] as real + (clip.pcm[after * w.channels] - clip.pcm[w.pos * w.channels]) as real * w.frac) * 0.35
    ensures PlayedAt(clip, v, Position(w), sample) && PlaybackStep(w) == PlaybackStep(v)
  {
    assert Position(w).Floor == w.pos;
  }

  function Started(clip: Clip, ev: Event, block: nat): Voice {
    Voice(true, ev.hold, ev.slot, clip.channels, clip.frames, clip.sampleRate, 0, 0.0, ClampPitch(ev.pitchRatio), block)
  }

  class Soundboard {
    var slots: seq<Clip>
    var refs: seq<nat>
    var queue: seq<Event>
    var queueWrite: nat
    var queueRead: nat
    var voices: seq<Voice>
    var holdVoice: int
    var bank: Bank
    /** The audio thread's own read position and the write position it loaded. */
    var next: nat
    var limit: nat
    /** History: lookups, reservations not queued yet, every event queued so far, and the voices' triggers. */
    ghost var looks: seq<Look>
    ghost var held: seq<Trigger>
    ghost var queued: seq<Trigger>
    ghost var sounding: seq<Trigger>

    ghost predicate Counted()
      reads `refs, `held, `queue, `queueWrite, `voices, `next
    {
      Balanced(refs, held, queue, next, queueWrite, voices)
    }

    ghost predicate Traced()
      reads `slots, `looks, `held, `queue, `queueWrite, `next, `queued, `voices, `sounding
    {
      && Carried(slots, held, queue, next, queueWrite, queued, voices, sounding)
      && Found(slots, looks)
    }

    ghost predicate Indices()
      reads `queue, `queueWrite, `queueRead, `next, `limit
    {
      && |queue| == QUEUE_CAP && queueRead <= next <= limit <= queueWrite <= queueRead + QUEUE_CAP
      && forall k :: next <= k < queueWrite ==> queue[k % QUEUE_CAP].slot < SLOTS
    }

    ghost predicate Voiced()
      reads `slots, `voices, `holdVoice
    {
      && |slots| == SLOTS && |voices| == VOICES
      && (forall i :: 0 <= i < SLOTS ==> ClipOk(slots[i]))
      && (forall i :: 0 <= i < VOICES ==> VoiceOk(voices[i], slots))
      && -1 <= holdVoice < VOICES
      && (forall i :: 0 <= i < VOICES ==> (voices[i].active && voices[i].hold <==> i == holdVoice))
    }

    ghost predicate Locked()
      reads `refs, `slots, `bank
    {
      bank.Filling? ==>
        bank.target < |refs| && bank.target < |slots| && refs[bank.target] == 0 && !slots[bank.target].loaded
    }

    ghost predicate Valid()
      reads this
    {
      |refs| == SLOTS && Counted() && Indices() && Voiced() && Locked() && Traced()
    }

    constructor ()
      ensures Valid() && bank == Unlocked && next == limit == queueWrite == queueRead == 0
      ensures slots == seq(SLOTS, _ => CLEARED) && refs == seq(SLOTS, _ => 0)
      ensures looks == [] && held == [] && queued == []
    {
      var silent := Voice(false, false, 0, 0, 0, 0, 0, 0.0, 1.0, 0);
      slots, refs := seq(SLOTS, _ => CLEARED), seq(SLOTS, _ => 0);
      looks, held, queued, sounding := [], [], [], seq(VOICES, _ => Trigger("", 0, CLEARED));
      queue, queueWrite, queueRead := seq(QUEUE_CAP, _ => Event(0, false, 1.0)), 0, 0;
      voices, holdVoice, bank := seq(VOICES, _ => silent), -1, Unlocked;
      next, limit := 0, 0;
      new;
      forall i | 0 <= i < SLOTS
        ensures refs[i] == Held(held, i) + Queued(queue, next, queueWrite, i) + Playing(voices, i)
      {
        NonePlaying(voices, i);
      }
    }

    // ----------------------------------------------------------------------------------------
    // Trigger threads.

    /** Looks a clip up by name, under the bank mutex. */
    method Find(name: string) returns (slot: Option<nat>)
      requires Valid() && bank == Unlocked
      modifies `looks
      ensures Valid() && slot == LookedUp(slots, name)
      ensures looks == old(looks) + if slot.Some? then [Look(name, slot.value, slots[slot.value], false)] else []
    {
      slot := FindLoadedSlot(name);
      if slot.Some? {
        looks := looks + [Look(name, slot.value, slots[slot.value], false)];
      }
    }

    method FindLoadedSlot(name: string) returns (slot: Option<nat>)
      requires |slots| == SLOTS
      ensures slot == LookedUp(slots, name)
    {
      if name == "" {
        return None;
      }
      for i := 0 to SLOTS
        invariant LookedUp(slots, name) == FirstNamed(slots, name, i)
      {
        if slots[i].loaded && slots[i].name == name {
          return Some(i);
        }
      }
      return None;
    }

    /**
     Takes a reference on a slot found earlier. The bank was unlocked in between: if a reload has met
     the slot unused, it may hold another clip by now, or none; otherwise it holds what was found.
     */
    method Reserve(ghost k: nat, slot: nat)
      requires Valid() && bank == Unlocked && k < |looks| && slot == looks[k].slot
      modifies `refs, `held
      ensures Valid() && refs == old(refs)[slot := old(refs)[slot] + 1]
      ensures held == old(held) + [Trigger(looks[k].name, slot, slots[slot])]
      ensures !looks[k].idle ==> Asked(held[|held| - 1])
    {
      hide Balanced, Carried, VoiceOk, ClipOk;
      ghost var t := Trigger(looks[k].name, slot, slots[slot]);
      ReservedBalanced(refs, held, queue, next, queueWrite, voices, t);
      ReservedCarried(slots, held, queue, next, queueWrite, queued, voices, sounding, t);
      refs, held := refs[slot := refs[slot] + 1], held + [t];
    }

    /** The branch that has just loaded what was missing: it looks up and reserves under one lock. */
    method FindAndReserve(name: string) returns (slot: Option<nat>)
      requires Valid() && bank == Unlocked
      modifies `refs, `held
      ensures Valid() && slot == LookedUp(slots, name)
      ensures slot.None? ==> refs == old(refs) && held == old(held)
      ensures slot.Some? ==> refs == old(refs)[slot.value := old(refs)[slot.value] + 1]
      ensures slot.Some? ==> held == old(held) + [Trigger(name, slot.value, slots[slot.value])] && Asked(held[|held| - 1])
    {
      hide Balanced, Carried, Found, VoiceOk, ClipOk;
      slot := FindLoadedSlot(name);
      if slot.Some? {
        ghost var t := Trigger(name, slot.value, slots[slot.value]);
        ReservedBalanced(refs, held, queue, next, queueWrite, voices, t);
        ReservedCarried(slots, held, queue, next, queueWrite, queued, voices, sounding, t);
        refs, held := refs[slot.value := refs[slot.value] + 1], held + [t];
      }
    }

    /** Queues the event of a reserved slot, or gives the reference back when the queue is full. */
    method Enqueue(ev: Event, ghost k: nat) returns (ok: bool)
      requires Valid() && k < |held| && held[k].slot == ev.slot
      modifies `refs, `held, `queue, `queueWrite, `queued
      ensures Valid() && (ok <==> old(queueWrite) - queueRead < QUEUE_CAP)
      ensures held == old(held)[..k] + old(held)[k + 1..]
      ensures ok ==> refs == old(refs) && queueWrite == old(queueWrite) + 1 && queue[old(queueWrite) % QUEUE_CAP] == ev
      ensures ok ==> queued == old(queued) + [old(held)[k]]
      ensures !ok ==> refs == Released(old(refs), ev.slot) && queue == old(queue) && queueWrite == old(queueWrite) && queued == old(queued)
    {
      hide Balanced, Carried;
      assert held[k].slot < SLOTS by {
        HeldSlot(k);
      }
      DroppedBalanced(refs, held, queue, next, queueWrite, voices, k);
      if queueWrite - queueRead >= QUEUE_CAP {
        DroppedCarried(slots, held, queue, next, queueWrite, queued, voices, sounding, k);
        ReleaseSlotRef(ev.slot);
        held := held[..k] + held[k + 1..];
        return false;
      }
      QueuedBalanced(refs, held, queue, next, queueWrite, voices, k, ev);
      QueuedCarried(slots, held, queue, next, queueWrite, queued, voices, sounding, k, ev);
      queue := queue[queueWrite % QUEUE_CAP := ev];
      held, queued := held[..k] + held[k + 1..], queued + [held[k]];
      queueWrite := queueWrite + 1;
      return true;
    }

    lemma Sized()
      requires Valid()
      ensures |voices| == |sounding| == VOICES
    {
    }

    lemma HeldSlot(k: nat)
      requires Valid() && k < |held|
      ensures held[k].slot < SLOTS && refs[held[k].slot] >= 1
    {
      HeldCounts(held, k);
    }

    // ----------------------------------------------------------------------------------------
    // Reload.

    method BeginReload()
      requires Valid() && bank == Unlocked
      modifies `bank
      ensures Valid() && bank == Reloading({})
    {
      bank := Reloading({});
    }

    method PickSlot(name: string) returns (target: Target)
      requires |slots| == |refs| == SLOTS
      ensures target == TargetOf(slots, refs, name)
    {
      var existing := FindLoadedSlot(name);
      if existing.Some? {
        return if refs[existing.value] > 0 then InUse(existing.value) else Into(existing.value);
      }
      for i := 0 to SLOTS
        invariant FirstFree(slots, refs, 0) == FirstFree(slots, refs, i)
      {
        if !slots[i].loaded && refs[i] == 0 {
          return Into(i);
        }
      }
      return NoRoom;
    }

    /** Chooses and clears the slot for one directory entry. */
    method ReloadFile(name: string) returns (found: bool)
      requires Valid() && bank.Reloading?
      modifies `slots, `bank, `looks
      ensures Valid() && found == bank.Filling?
      ensures match TargetOf(old(slots), refs, name)
              case InUse(i) => slots == old(slots) && bank == Reloading(old(bank).seen + {i})
              case NoRoom => slots == old(slots) && bank == old(bank)
              case Into(i) => slots == old(slots)[i := CLEARED] && bank == Filling(old(bank).seen, i, name)
      ensures forall i :: 0 <= i < SLOTS && refs[i] > 0 ==> slots[i] == old(slots)[i]
      ensures looks == Met(old(looks), refs)
    {
      hide Balanced, Carried, VoiceOk, Met;
      var target := PickSlot(name);
      ghost var met := looks;
      looks := Met(looks, refs);
      if target.InUse? {
        bank := Reloading(bank.seen + {target.slot});
        return false;
      }
      if target.NoRoom? {
        return false;
      }
      MetFound(slots, refs, met, target.slot, CLEARED);
      ReplacedCarried(slots, refs, held, queue, next, queueWrite, queued, voices, sounding, target.slot, CLEARED);
      slots := slots[target.slot := CLEARED];
      bank := Filling(bank.seen, target.slot, name);
      return true;
    }

    /** The file has been read; on failure the slot stays cleared. */
    method FillSlot(clip: Clip)
      requires Valid() && bank.Filling? && ClipOk(clip) && (clip.loaded ==> clip.name == bank.name)
      modifies `slots, `bank, `looks
      ensures Valid() && bank == Reloading(old(bank).seen + if clip.loaded then {old(bank).target} else {})
      ensures slots == if clip.loaded then old(slots)[old(bank).target := clip] else old(slots)
      ensures forall i :: 0 <= i < SLOTS && refs[i] > 0 ==> slots[i] == old(slots)[i]
      ensures looks == Met(old(looks), refs)
    {
      hide Balanced, Carried, Found, VoiceOk, Met;
      MetFound(slots, refs, looks, bank.target, clip);
      looks := Met(looks, refs);
      if clip.loaded {
        ReplacedCarried(slots, refs, held, queue, next, queueWrite, queued, voices, sounding, bank.target, clip);
        slots := slots[bank.target := clip];
        bank := Reloading(bank.seen + {bank.target});
      } else {
        bank := Reloading(bank.seen + {});
      }
    }

    method EndReload()
      requires Valid() && bank.Reloading?
      modifies `slots, `bank, `looks
      ensures Valid() && bank == Unlocked && slots == Swept(Progress(old(slots), old(bank).seen), refs)
      ensures looks == Met(old(looks), refs)
    {
      hide Balanced, Carried, VoiceOk;
      looks := Met(looks, refs);
      for i := 0 to SLOTS
        invariant Valid() && bank == old(bank) && looks == Met(old(looks), refs)
        invariant forall k :: 0 <= k < i ==>
                    slots[k] == if old(slots)[k].loaded && k !in old(bank).seen && refs[k] == 0 then CLEARED else old(slots)[k]
        invariant forall k :: i <= k < SLOTS ==> slots[k] == old(slots)[k]
      {
        if slots[i].loaded && i !in bank.seen && refs[i] == 0 {
          ReplacedCarried(slots, refs, held, queue, next, queueWrite, queued, voices, sounding, i, CLEARED);
          slots := slots[i := CLEARED];
        }
      }
      bank := Unlocked;
    }

    /** One file: its slot is chosen and, unless it is in use, loaded. */
    method LoadFile(file: WavFile)
      requires Valid() && bank.Reloading? && ClipOk(file.clip) && (file.clip.loaded ==> file.clip.name == file.name)
      modifies `slots, `bank, `looks
      ensures Valid() && bank.Reloading? && looks == Met(old(looks), refs)
      ensures Progress(slots, bank.seen) == FileLoaded(Progress(old(slots), old(bank).seen), refs, file)
    {
      hide Balanced, Carried, Found, VoiceOk, ClipOk, Met;
      MetTwice(looks, refs);
      var found := ReloadFile(file.name);
      if found {
        FillSlot(file.clip);
      }
    }

    /** A whole reload, while no voice ends. */
    method ReloadBank(files: seq<WavFile>)
      requires Valid() && bank == Unlocked
      requires forall k :: 0 <= k < |files| ==> ClipOk(files[k].clip) && (files[k].clip.loaded ==> files[k].clip.name == files[k].name)
      modifies `slots, `bank, `looks
      ensures Valid() && bank == Unlocked && slots == Reloaded(old(slots), refs, files)
      ensures looks == Met(old(looks), refs)
    {
      hide Balanced, Carried, Found, VoiceOk, ClipOk, Met, FileLoaded;
      MetTwice(looks, refs);
      BeginReload();
      for k := 0 to |files|
        invariant Valid() && bank.Reloading?
        invariant looks == old(looks) || looks == Met(old(looks), refs)
        invariant Progress(slots, bank.seen) == FilesLoaded(Progress(old(slots), {}), refs, files[..k])
      {
        assert files[..k + 1][..k] == files[..k];
        LoadFile(files[k]);
      }
      assert files[..|files|] == files;
      EndReload();
    }

    // ----------------------------------------------------------------------------------------
    // The audio thread.

    /** Ends a voice and gives its reference back. */
    method StopVoice(i: nat)
      requires Valid() && i < VOICES
      modifies `refs, `voices, `holdVoice
      ensures Valid()
      ensures voices == old(voices)[i := if old(voices)[i].active then old(voices)[i].(active := false, hold := false) else old(voices)[i]]
      ensures holdVoice == if old(voices)[i].active && old(holdVoice) == i then -1 else old(holdVoice)
      ensures refs == if old(voices)[i].active then Released(old(refs), old(voices)[i].slot) else old(refs)
    {
      hide Balanced, Carried, Found, ClipOk;
      var v := voices[i];
      if v.active {
        assert VoiceOk(v, slots);
        StoppedBalanced(refs, held, queue, next, queueWrite, voices, i);
        StoppedCarried(slots, held, queue, next, queueWrite, queued, voices, sounding, i, v.(active := false, hold := false));
        ReleaseSlotRef(v.slot);
        voices := voices[i := v.(active := false, hold := false)];
        if holdVoice == i {
          holdVoice := -1;
        }
      }
    }

    method ReleaseSlotRef(slot: nat)
      requires slot < |refs|
      modifies `refs
      ensures refs == Released(old(refs), slot)
    {
      if refs[slot] > 0 {
        refs := refs[slot := refs[slot] - 1];
      }
    }

    method StopAllVoices()
      requires Valid()
      modifies `refs, `voices, `holdVoice
      ensures Valid() && holdVoice == -1
      ensures forall i :: 0 <= i < VOICES ==> !voices[i].active
    {
      for i := 0 to VOICES
        invariant Valid()
        invariant forall k :: 0 <= k < i ==> !voices[k].active
      {
        StopVoice(i);
      }
      holdVoice := -1;
    }

    /** Loads the queue's write index for this round. */
    method LoadWrite()
      requires Valid() && next == limit
      modifies `limit
      ensures Valid() && limit == queueWrite
    {
      limit := queueWrite;
    }

    /** Publishes what has been consumed, which frees the entries for the triggers. */
    method StoreRead()
      requires Valid() && next == limit
      modifies `queueRead
      ensures Valid() && queueRead == next
    {
      queueRead := next;
    }

    /** Stop-all throws queued events away, giving their references back. */
    method DrainEvent()
      requires Valid() && next < limit
      modifies `refs, `next
      ensures Valid() && next == old(next) + 1
      ensures refs == Released(old(refs), queue[old(next) % QUEUE_CAP].slot)
    {
      hide Balanced, Carried, Found;
      DrainedBalanced(refs, held, queue, next, queueWrite, voices);
      DrainedCarried(slots, held, queue, next, queueWrite, queued, voices, sounding);
      ReleaseSlotRef(queue[next % QUEUE_CAP].slot);
      next := next + 1;
    }

    method StopHeld()
      requires Valid()
      modifies `refs, `voices, `holdVoice
      ensures Valid() && holdVoice == -1 && voices == HoldStopped(old(voices), old(holdVoice))
    {
      if holdVoice >= 0 {
        StopVoice(holdVoice);
      }
      holdVoice := -1;
    }

    /** A silent voice if there is one, else the oldest that may be taken. */
    method PickVoiceForStart(forHold: bool) returns (selected: nat)
      requires |voices| == VOICES
      ensures selected < VOICES && Chosen(voices, forHold, selected)
    {
      for i := 0 to VOICES
        invariant forall k :: 0 <= k < i ==> voices[k].active
      {
        if !voices[i].active {
          return i;
        }
      }
      var found := false;
      selected := 0;
      for i := 0 to VOICES
        invariant selected < VOICES
        invariant found <==> exists k :: 0 <= k < i && (forHold || !voices[k].hold)
        invariant found ==> forHold || !voices[selected].hold
        invariant found ==> forall k :: 0 <= k < i && (forHold || !voices[k].hold) ==> voices[selected].startedAt <= voices[k].startedAt
      {
        if (forHold || !voices[i].hold) && (!found || voices[i].startedAt < voices[selected].startedAt) {
          found, selected := true, i;
        }
      }
      if !found {
        for i := 0 to VOICES
          invariant selected < VOICES
          invariant forall k :: 0 <= k < i ==> voices[selected].startedAt <= voices[k].startedAt
        {
          if voices[i].startedAt < voices[selected].startedAt {
            selected := i;
          }
        }
      }
    }

    /**
     Turns the next event into a voice, which plays the slot's clip from its beginning; the event's
     reference becomes the voice's. Only the voice it takes, and a held one that a new hold replaces, change.
     */
    method ConsumeEvent(block: nat) returns (started: bool, index: nat)
      requires Valid() && next < limit
      modifies `refs, `voices, `holdVoice, `next, `sounding
      ensures Valid() && next == old(next) + 1 && index < VOICES
      ensures var ev, trigger := queue[old(next) % QUEUE_CAP], queued[old(next)];
              && ev.slot == trigger.slot && slots[ev.slot] == trigger.clip
              && (started <==> trigger.clip.loaded && trigger.clip.frames > 0 && trigger.clip.sampleRate > 0 && 1 <= trigger.clip.channels <= 2)
      ensures var ev, clip := queue[old(next) % QUEUE_CAP], slots[queue[old(next) % QUEUE_CAP].slot];
              started ==>
                && voices[index] == Voice(true, ev.hold, ev.slot, clip.channels, clip.frames, clip.sampleRate, 0, 0.0, voices[index].pitchRatio, block)
                && (0.125 <= ev.pitchRatio <= 8.0 ==> voices[index].pitchRatio == ev.pitchRatio)
                && sounding[index] == queued[old(next)] && (ev.hold ==> holdVoice == index)
      ensures started ==>
                var was := if queue[old(next) % QUEUE_CAP].hold then HoldStopped(old(voices), old(holdVoice)) else old(voices);
                && Chosen(was, queue[old(next) % QUEUE_CAP].hold, index)
                && forall k :: 0 <= k < VOICES && k != index ==> voices[k] == was[k]
      ensures !started ==> voices == old(voices) && refs == Released(old(refs), queue[old(next) % QUEUE_CAP].slot)
    {
      hide Balanced, Carried, Found, VoiceOk, ClipOk, Chosen;
      DrainedCarried(slots, held, queue, next, queueWrite, queued, voices, sounding);
      var ev := queue[next % QUEUE_CAP];
      var clip := slots[ev.slot];
      if !Playable(clip) {
        DrainEvent();
        return false, 0;
      }
      if ev.hold {
        StopHeld();
      }
      index := PickVoiceForStart(ev.hold);
      StopVoice(index);
      StartVoice(index, ev, block);
      return true, index;
    }

    method StartVoice(i: nat, ev: Event, block: nat)
      requires Valid() && next < limit && ev == queue[next % QUEUE_CAP] && Playable(slots[ev.slot])
      requires i < VOICES && !voices[i].active && (ev.hold ==> holdVoice == -1)
      modifies `voices, `holdVoice, `next, `sounding
      ensures Valid() && next == old(next) + 1
      ensures voices == old(voices)[i := Started(slots[ev.slot], ev, block)] && sounding == old(sounding)[i := queued[old(next)]]
      ensures holdVoice == if ev.hold then i else old(holdVoice)
    {
      hide Balanced, Carried, Found, ClipOk;
      var v := Started(slots[ev.slot], ev, block);
      StartedBalanced(refs, held, queue, next, queueWrite, voices, i, v);
      StartedCarried(slots, held, queue, next, queueWrite, queued, voices, sounding, i, v);
      DrainedCarried(slots, held, queue, next, queueWrite, queued, voices, sounding);
      voices, sounding := voices[i := v], sounding[i := queued[next]];
      if ev.hold {
        holdVoice := i;
      }
      next := next + 1;
    }

    /**
     One frame of one voice: the clip's two samples around its position, which lie inside the clip,
     blended by where it is between them. Then it moves on, and ends when it is past the last frame.
     */
    method RenderFrame(i: nat) returns (sample: real)
      requires Valid() && i < VOICES && voices[i].active
      modifies `refs, `voices, `holdVoice
      ensures Valid()
      ensures var v := old(voices)[i];
              var clip, after := slots[v.slot], if v.pos + 1 < v.frames then v.pos + 1 else v.pos;
              && v.pos * v.channels < |clip.pcm| && after * v.channels < |clip.pcm|
              && 32768.0 * sample ==
                 (clip.pcm[v.pos * v.channels] as real + (clip.pcm[after * v.channels] - clip.pcm[v.pos * v.channels]) as real * v.frac) * 0.35
      ensures var v := old(voices)[i];
              && (voices[i].active <==> Position(v) + PlaybackStep(v) < v.frames as real)
              && (voices[i].active ==>
                    && voices[i] == v.(pos := voices[i].pos, frac := voices[i].frac)
                    && Position(voices[i]) == Position(v) + PlaybackStep(v) && 0.0 <= voices[i].frac < 1.0
                    && refs == old(refs) && holdVoice == old(holdVoice))
              && (!voices[i].active ==> refs == Released(old(refs), v.slot))
      ensures forall k :: 0 <= k < VOICES && k != i ==> voices[k] == old(voices)[k]
    {
      hide Balanced, Carried, Found;
      var v := voices[i];
      assert VoiceOk(v, slots);
      var clip := slots[v.slot];
      assert ClipOk(clip);
      InsideClip(clip, v.pos);
      var posB := if v.pos + 1 < v.frames then v.pos + 1 else v.pos;
      InsideClip(clip, posB);
      var a, b := clip.pcm[v.pos * v.channels] as real / 32768.0, clip.pcm[posB * v.channels] as real / 32768.0;
      sample := (a + (b - a) * v.frac) * 0.35;
      StepForward(v);
      var pos, frac := Advance(v.pos, v.frac + PlaybackStep(v), v.frames);
      if pos >= v.frames {
        StopVoice(i);
      } else {
        MoveVoice(i, pos, frac);
      }
    }

    /** A voice that goes on playing. */
    method MoveVoice(i: nat, pos: nat, frac: real)
      requires Valid() && i < VOICES && voices[i].active && pos < voices[i].frames && 0.0 <= frac < 1.0
      modifies `voices
      ensures Valid() && voices == old(voices)[i := old(voices)[i].(pos := pos, frac := frac)]
    {
      hide Balanced, Carried, Found, ClipOk;
      var v := voices[i].(pos := pos, frac := frac);
      MovedBalanced(refs, held, queue, next, queueWrite, voices, i, v);
      StoppedCarried(slots, held, queue, next, queueWrite, queued, voices, sounding, i, v);
      voices := voices[i := v];
    }

    /** Whole frames are taken off the fraction, up to the end of the clip. */
    method Advance(start: nat, fraction: real, frames: nat) returns (pos: nat, frac: real)
      requires fraction >= 0.0 && start <= frames
      ensures pos as real + frac == start as real + fraction && start <= pos <= frames && frac >= 0.0
      ensures pos < frames ==> frac < 1.0
    {
      pos, frac := start, fraction;
      while frac >= 1.0 && pos < frames
        invariant pos as real + frac == start as real + fraction && start <= pos <= frames && frac >= 0.0
        decreases frames - pos
      {
        pos, frac := pos + 1, frac - 1.0;
      }
    }

    /** One frame of the soundboard: all voices together, limited, and each of them one step further. */
    method RenderSample() returns (s: real, ghost parts: seq<real>)
      requires Valid()
      modifies `refs, `voices, `holdVoice
      ensures Valid() && |parts| == VOICES
      ensures forall k :: 0 <= k < VOICES ==>
                if old(voices)[k].active
                then Moved(old(voices)[k], voices[k]) && old(voices)[k].slot < SLOTS &&
                     PlayedAt(slots[old(voices)[k].slot], old(voices)[k], Position(old(voices)[k]), parts[k])
                else voices[k] == old(voices)[k] && parts[k] == 0.0
      ensures s == if Total(parts) > 0.98 then 0.98 else if Total(parts) < -0.98 then -0.98 else Total(parts)
    {
      hide Balanced, Carried, Found, VoiceOk, ClipOk, PlayedAt, Moved;
      s, parts := 0.0, [];
      for i := 0 to VOICES
        invariant Valid() && |parts| == i && s == Total(parts)
        invariant forall k :: i <= k < VOICES ==> voices[k] == old(voices)[k]
        invariant forall k :: 0 <= k < i ==>
                    if old(voices)[k].active
                    then Moved(old(voices)[k], voices[k]) && old(voices)[k].slot < SLOTS &&
                         PlayedAt(slots[old(voices)[k].slot], old(voices)[k], Position(old(voices)[k]), parts[k])
                    else voices[k] == old(voices)[k] && parts[k] == 0.0
      {
        var sample := 0.0;
        if voices[i].active {
          Playful(i);
          sample := MoveOn(i);
        }
        s := s + sample;
        assert (parts + [sample])[..i] == parts;
        parts := parts + [sample];
      }
      s := if s > 0.98 then 0.98 else if s < -0.98 then -0.98 else s;
    }

    method MoveOn(i: nat) returns (sample: real)
      requires Valid() && i < VOICES && voices[i].active && voices[i].slot < SLOTS == |slots|
      modifies `refs, `voices, `holdVoice
      ensures Valid() && Moved(old(voices)[i], voices[i])
      ensures PlayedAt(slots[old(voices)[i].slot], old(voices)[i], Position(old(voices)[i]), sample)
      ensures forall k :: 0 <= k < VOICES && k != i ==> voices[k] == old(voices)[k]
    {
      hide Balanced, Carried, Found, VoiceOk, ClipOk, PlayedAt, Position;
      Playful(i);
      ghost var w := voices[i];
      sample := RenderFrame(i);
      BlendedHere(slots[w.slot], w, w, sample);
    }

    /** A voice plays to its end: the frames of its clip, in order, at the pace of its rate and pitch. */
    method PlayOut(i: nat) returns (samples: seq<real>)
      requires Valid() && i < VOICES && voices[i].active
      modifies `refs, `voices, `holdVoice
      ensures Valid() && !voices[i].active && refs == Released(old(refs), old(voices)[i].slot)
      ensures var v := old(voices)[i];
              && |samples| > 0 && Place(v, |samples| - 1) < v.frames as real <= Place(v, |samples|)
              && forall k :: 0 <= k < |samples| ==> PlayedAt(slots[v.slot], v, Place(v, k), samples[k])
    {
      hide Balanced, Carried, Found, VoiceOk, ClipOk, PlayedAt, Place, PlaybackStep, Position;
      ghost var v := voices[i];
      Playful(i);
      PlaceFirst(v);
      samples := [];
      while voices[i].active
        invariant Valid()
        invariant voices[i].active ==> voices[i] == v.(pos := voices[i].pos, frac := voices[i].frac) && refs == old(refs)
        invariant voices[i].active ==> Position(voices[i]) == Place(v, |samples|) < v.frames as real
        invariant !voices[i].active ==> refs == Released(old(refs), v.slot)
        invariant !voices[i].active ==> |samples| > 0 && Place(v, |samples| - 1) < v.frames as real <= Place(v, |samples|)
        invariant forall k :: 0 <= k < |samples| ==> PlayedAt(slots[v.slot], v, Place(v, k), samples[k])
        decreases voices[i].active, MostSteps(v) - |samples|
      {
        PlaceNext(v, |samples|);
        var sample := PlayOne(i, v);
        samples := samples + [sample];
      }
    }

    /** One step of that. */
    method PlayOne(i: nat, ghost v: Voice) returns (sample: real)
      requires Valid() && i < VOICES && voices[i].active && voices[i] == v.(pos := voices[i].pos, frac := voices[i].frac)
      modifies `refs, `voices, `holdVoice
      ensures Valid() && PlayedAt(slots[v.slot], v, Position(old(voices)[i]), sample)
      ensures voices[i].active <==> Position(old(voices)[i]) + PlaybackStep(v) < v.frames as real
      ensures voices[i].active ==> voices[i] == v.(pos := voices[i].pos, frac := voices[i].frac) && refs == old(refs)
      ensures voices[i].active ==> Position(voices[i]) == Position(old(voices)[i]) + PlaybackStep(v)
      ensures !voices[i].active ==> refs == Released(old(refs), v.slot)
    {
      hide Balanced, Carried, Found, VoiceOk, ClipOk, PlayedAt, Position, PlaybackStep, Released, ClampPitch, Takeable, HoldStopped;
      Playful(i);
      ghost var w := voices[i];
      sample := RenderFrame(i);
      BlendedHere(slots[v.slot], v, w, sample);
    }

    lemma Playful(i: nat)
      requires Valid() && i < VOICES && voices[i].active
      ensures voices[i].slot < SLOTS == |slots| && voices[i].sampleRate > 0 && voices[i].pos < voices[i].frames && 0.0 <= voices[i].frac < 1.0
    {
    }

    /**
     What a voice plays is what its slot held when it was reserved, so it plays what was asked for
     exactly if the slot held that then.
     */
    lemma VoicePlaysAsked(i: nat)
      requires Valid() && i < VOICES && voices[i].active
      ensures voices[i].slot < SLOTS && slots[voices[i].slot] == sounding[i].clip
      ensures slots[voices[i].slot].loaded && slots[voices[i].slot].name == sounding[i].name <==> Asked(sounding[i])
    {
    }
  }

  // ------------------------------------------------------------------------------------------
  // Between the lookup and the reservation.

  /** The bank at some moment. */
  datatype Moment = Moment(slots: seq<Clip>, refs: seq<nat>)

  /** Whatever a step does to the bank, it changes only slots that are not in use. */
  predicate BankStep(a: Moment, b: Moment) {
    && |a.slots| == |a.refs| == |b.slots| == |b.refs| == SLOTS
    && forall i :: 0 <= i < SLOTS ==> b.slots[i] == a.slots[i] || (a.refs[i] == 0 && b.refs[i] == 0)
  }

  predicate History(moments: seq<Moment>) {
    && (forall k :: 0 <= k < |moments| ==> |moments[k].slots| == |moments[k].refs| == SLOTS)
    && (forall k :: 0 <= k < |moments| - 1 ==> BankStep(moments[k], moments[k + 1]))
  }

  lemma {:induction false} SteadyWhileUsed(moments: seq<Moment>, slot: nat, from: nat, end: nat)
    requires History(moments) && slot < SLOTS && from <= end < |moments|
    requires forall k :: from <= k < end ==> moments[k].refs[slot] > 0
    ensures moments[end].slots[slot] == moments[from].slots[slot]
    decreases end - from
  {
    if from < end {
      SteadyWhileUsed(moments, slot, from, end - 1);
      assert BankStep(moments[end - 1], moments[end - 1 + 1]);
    }
  }

  /** The slot holds a clip of this name. */
  predicate Holds(m: Moment, slot: nat, name: string) {
    slot < |m.slots| && m.slots[slot].loaded && m.slots[slot].name == name
  }

  /**
   A sound is found, reserved and started, in use from its reservation on. What plays has the name
   that was asked for exactly if the slot still held that at the reservation, and it did if the slot
   was in use all the time, or if it was found and reserved at once.
   */
  lemma PlaysWhatWasFound(moments: seq<Moment>, name: string, slot: nat, found: nat, reserved: nat, started: nat)
    requires History(moments) && found <= reserved < started < |moments| && LookedUp(moments[found].slots, name) == Some(slot)
    requires forall k :: reserved < k < started ==> moments[k].refs[slot] > 0
    requires moments[reserved + 1].slots == moments[reserved].slots
    ensures Holds(moments[started], slot, name) <==> Holds(moments[reserved], slot, name)
    ensures found == reserved || (forall k :: found <= k < reserved ==> moments[k].refs[slot] > 0) ==> Holds(moments[started], slot, name)
  {
    SteadyWhileUsed(moments, slot, reserved + 1, started);
    if forall k :: found <= k < reserved ==> moments[k].refs[slot] > 0 {
      SteadyWhileUsed(moments, slot, found, reserved);
    }
  }

  /** Each file's step of a reload, and the sweep at its end, are such steps. */
  lemma ReloadIsBankStep(p: Progress, refs: seq<nat>, file: WavFile)
    requires |p.slots| == |refs| == SLOTS
    ensures BankStep(Moment(p.slots, refs), Moment(FileLoaded(p, refs, file).slots, refs))
    ensures BankStep(Moment(p.slots, refs), Moment(Swept(p, refs), refs))
  {
  }

  lemma ReloadOfNothing(slots: seq<Clip>, refs: seq<nat>)
    requires |slots| == |refs| == SLOTS && forall i :: 0 <= i < SLOTS ==> refs[i] == 0
    ensures forall i :: 0 <= i < SLOTS && slots[i].loaded ==> Reloaded(slots, refs, [])[i] == CLEARED
    ensures forall i :: 0 <= i < SLOTS && !slots[i].loaded ==> Reloaded(slots, refs, [])[i] == slots[i]
  {
  }

  lemma ReloadOfOne(slots: seq<Clip>, refs: seq<nat>, file: WavFile)
    requires |slots| == |refs| == SLOTS && (forall i :: 0 <= i < SLOTS ==> refs[i] == 0 && !slots[i].loaded)
    requires file.clip.loaded
    ensures Reloaded(slots, refs, [file])[0] == file.clip
  {
    assert [file][..0] == [];
    assert FirstFree(slots, refs, 0) == Some(0);
    assert TargetOf(slots, refs, file.name) == Into(0);
    assert FilesLoaded(Progress(slots, {}), refs, [file]) == Progress(slots[0 := file.clip], {0});
  }

  /**
   A clip is found, and before its slot is reserved its file is taken away: after one reload the slot
   is empty and nothing will play, after another one a different clip will.
   */
  lemma GoneBeforeReserved(found: Clip, other: WavFile, slots: seq<Clip>, refs: seq<nat>)
    requires Playable(found) && found.name != "" && Playable(other.clip) && other.clip.name == other.name != found.name
    requires slots == [found] + seq(SLOTS - 1, _ => CLEARED) && refs == seq(SLOTS, _ => 0)
    ensures var emptied := Reloaded(slots, refs, []);
            var refilled := Reloaded(emptied, refs, [other]);
            && LookedUp(slots, found.name) == Some(0)
            && !Playable(emptied[0]) && refilled[0] == other.clip
  {
    ReloadOfNothing(slots, refs);
    assert slots[0] == found;
    ReloadOfOne(Reloaded(slots, refs, []), refs, other);
  }

  /**
   The bank as it is found, emptied by one reload, refilled by another, and once the slot that was
   found has been reserved, until its sound starts.
   */
  function Replacing(slots: seq<Clip>, refs: seq<nat>, other: WavFile): seq<Moment>
    requires |slots| == |refs| == SLOTS
  {
    var emptied := Reloaded(slots, refs, []);
    var refilled := Reloaded(emptied, refs, [other]);
    var used := refs[0 := refs[0] + 1];
    [Moment(slots, refs), Moment(emptied, refs), Moment(refilled, refs), Moment(refilled, used), Moment(refilled, used)]
  }

  /**
   The failing run: the sound that was looked up is found, its slot reserved two reloads later, and
   the clip that starts is playable and has another name.
   */
  lemma AnotherClipPlays(found: Clip, other: WavFile, slots: seq<Clip>, refs: seq<nat>)
    requires Playable(found) && found.name != "" && Playable(other.clip) && other.clip.name == other.name != found.name
    requires slots == [found] + seq(SLOTS - 1, _ => CLEARED) && refs == seq(SLOTS, _ => 0)
    ensures var moments := Replacing(slots, refs, other);
            && History(moments) && LookedUp(moments[0].slots, found.name) == Some(0)
            && moments[3].slots == moments[2].slots && moments[3].refs == moments[2].refs[0 := moments[2].refs[0] + 1]
            && Playable(moments[4].slots[0]) && moments[4].slots[0].name == other.name
            && !Holds(moments[4], 0, found.name)
  {
    hide Reloaded, Playable, LookedUp;
    GoneBeforeReserved(found, other, slots, refs);
    var moments := Replacing(slots, refs, other);
    ReplacingIsHistory(slots, refs, other);
    ReloadedSize(slots, refs, []);
    ReloadedSize(moments[1].slots, refs, [other]);
    PlaysWhatWasFound(moments, found.name, 0, 0, 2, 4);
  }

  lemma ReloadedSize(slots: seq<Clip>, refs: seq<nat>, files: seq<WavFile>)
    requires |slots| == |refs|
    ensures |Reloaded(slots, refs, files)| == |refs|
  {
  }

  lemma ReplacingIsHistory(slots: seq<Clip>, refs: seq<nat>, other: WavFile)
    requires |slots| == |refs| == SLOTS && forall i :: 0 <= i < SLOTS ==> refs[i] == 0
    ensures History(Replacing(slots, refs, other))
  {
    hide Reloaded;
    var moments := Replacing(slots, refs, other);
    ReloadedSize(slots, refs, []);
    ReloadedSize(moments[1].slots, refs, [other]);
    forall k | 0 <= k < |moments| - 1
      ensures BankStep(moments[k], moments[k + 1])
    {
    }
  }
}
