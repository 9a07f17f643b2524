/** Where a clip's voice starts, when the transport starts at `fromTime`:
    how long to wait before it sounds (`when`) and how far into the clip it
    enters (`clipOffset`). A clip that lies ahead is delayed; a clip the
    transport has already entered starts at once, part-way through. */
module Scheduling {

  /** `when`: the wait from now until the clip sounds, max(0, startTime - fromTime). */
  function StartDelay(startTime: real, fromTime: real): (when: real)
    ensures when >= 0.0
    ensures when >= startTime - fromTime
  {
    if startTime - fromTime > 0.0 then startTime - fromTime else 0.0
  }

  /** `clipOffset`: how far the transport is already inside the clip, max(0, fromTime - startTime).
      At most one of the delay and the entry offset is non-zero, and their
      difference is always the clip's distance from the transport. */
  function EntryOffset(startTime: real, fromTime: real): (clipOffset: real)
    ensures clipOffset >= 0.0
    ensures StartDelay(startTime, fromTime) - clipOffset == startTime - fromTime
    ensures clipOffset == 0.0 || StartDelay(startTime, fromTime) == 0.0
  {
    if fromTime - startTime > 0.0 then fromTime - startTime else 0.0
  }

  /** Clock time at which a voice for a clip starting at `startTime` begins, with the clock at `now`. */
  function VoiceStartAt(startTime: real, fromTime: real, now: real): (at: real)
    ensures at >= now
    ensures at == now || at == now + (startTime - fromTime)
  {
    now + StartDelay(startTime, fromTime)
  }

  /** Source position a voice reads from first: the clip's trim plus the entry offset. */
  function VoiceSourceOffset(clipTrim: real, startTime: real, fromTime: real): (pos: real)
    ensures pos >= clipTrim
    ensures fromTime <= startTime ==> pos == clipTrim
    ensures fromTime > startTime ==> pos == clipTrim + (fromTime - startTime)
  {
    clipTrim + EntryOffset(startTime, fromTime)
  }

  /** Once sounding, a voice reads exactly the source position that belongs to
      the transport's current arrangement position: the transport was anchored
      at `now - fromTime`, so at clock time `t` the arrangement position is
      `t - (now - fromTime)`, and the clip maps arrangement position `p` to
      source position `clipTrim + (p - startTime)`. */
  lemma VoiceAlignedWithTransport(clipTrim: real, startTime: real, fromTime: real, now: real, t: real)
    requires t >= VoiceStartAt(startTime, fromTime, now)
    ensures VoiceSourceOffset(clipTrim, startTime, fromTime) + (t - VoiceStartAt(startTime, fromTime, now))
         == clipTrim + ((t - (now - fromTime)) - startTime)
  {
  }

  /** The mid-clip entry case: a clip at 2 s played from 3 s starts at once, one second in. */
  lemma MidClipEntryExample()
    ensures StartDelay(2.0, 3.0) == 0.0 && EntryOffset(2.0, 3.0) == 1.0
    ensures VoiceSourceOffset(0.0, 2.0, 3.0) == 1.0
  {
  }
}
