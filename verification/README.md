# jlsampler2 engine core in Dafny

jlsampler2 is a JACK/ALSA sample player. The MIDI thread turns note-on
events into *voices* (`PlayingSample`s) taken from a recycle queue and
pushed in pairs onto a "new" queue. Once per audio block, the JACK callback
does the following:

- commits the double-buffered control bank;
- drains whole pairs from the new queue into the playing queue;
- plays every playing voice once;
- retires finished voices to the recycle queue and requeues the others;
- converts the mix to the output ports and updates a peak meter.

The voices play samples from a 128-key × layer × variation table. The table
is filled from `on-K-L-V` files when the engine loads. A load-time pipeline
then prepares it:

1. a synthetic low-pass layer;
2. round-robin borrowing from neighbouring keys;
3. filling of empty keys;
4. cropping of leading silence;
5. an RMS measurement for loudness normalisation.

This project models that core as pure functions over immutable data and
proves what the code promises. All files are verified together with
Dafny 4.11, from this directory:

    dafny verify --resource-limit 2000000 --verification-time-limit 0 --warn-contradictory-assumptions *.dfy

| file | module | models |
|---|---|---|
| global.dfy | Global | global.h constants, the C `(int)` cast, NULL-able pointers, libm as a parameter |
| ringbuffer.dfy | RingBuffer | ringbuffer.c/.h: bounded FIFO of handles, capacity abstract |
| controls.dfy | Controls | controls.c/.h: the pending/committed control bank |
| sample.dfy | SampleStore | the table, velocity → layer selection with round-robin cursors, init/free |
| sample_load.dfy | SampleLoad | `sscanf("on-%d-%d-%d")`, extent growth and sample placement of `sstore_load` |
| sample_copy.dfy | SampleCopy | `_copy_samples`, borrowing and filling |
| sample_prep.dfy | SamplePrep | the synthetic layer, cropping, RMS |
| voice.dfy | Voice | `_load_ps` and the frame loop of `_proc_ps` |
| sampler.dfy | Sampler | the engine record, its invariant, init, peaks, note-on and the queue hand-off |
| block.dfy | Block | `sampler_jack_process`: drain, play loop, mix, output and peak |
| lifecycle.dfy | Lifecycle | `_sampler_load` / `_sampler_unload` and `_unload_buffer` |
| midi.dfy | Midi | the event switch of `sampler_midi_thread` |

**Model choices:**

- **Voices and queues.** Voices are handles (indices) into a pool of voice
  records. The three queues hold `Option<Handle>`, where `None` is the NULL
  placeholder. The engine invariant `Sampler.Inv` holds the following:
  - every handle is in exactly one queue, so the pool is a set;
  - psPlaying and psRecycle hold no NULL, and psNew keeps its pair shape;
  - the queue capacities leave room for every voice;
  - every scheduled voice refers to a slot of the store that holds data.
- **Doubles and libm.** Doubles are reals. `exp`, `pow` and `sqrt` are
  fields of a `Math` record passed as a parameter, and the interpolation
  of a sample's frames is an `Interp` parameter.
- **Integer widths.** Integers are unbounded. The C truncating cast is
  written out (`Global.Trunc`), and so is the per-key table bound of
  MAX_VARS. Where the source writes past a fixed array, the model carries
  that as a precondition or, for a whole load, as the `Undefined` status.

## Model

| member | source | states |
|---|---|---|
| Global.Trunc | sample.c:406 | the C `(int)` cast truncates toward zero: for x ≥ 0 the result is the floor, for x < 0 the ceiling |
| RingBuffer.New | ringbuffer.c:9-15 | a new queue reports the requested size and holds no item |
| RingBuffer.Put | ringbuffer.c:33-41 | succeeds exactly when there is room for one handle; then the handle is appended at the back and the count grows by one; otherwise nothing changes; the size never changes |
| RingBuffer.Get | ringbuffer.c:43-51 | an empty queue returns NULL and is unchanged; otherwise the oldest item is removed and returned and the count drops by one |
| RingBuffer.PutAllAppends | ringbuffer.h:22-24 | with room for all of them, every put succeeds and the items are appended in order |
| RingBuffer.GetNReturnsOldest | ringbuffer.h:26-28 | n gets return the n oldest items in FIFO order and leave the rest |
| RingBuffer.FillThenDrain | ringbuffer.h:16-28 | a buffer of capacity N accepts N items, refuses the next, and gives the N items back in order, ending empty |
| RingBuffer.NullIsIndistinguishableFromEmpty | ringbuffer.c:39-50 | a get answers NULL iff the queue is empty or its oldest item is a stored NULL; on an empty queue nothing changes, otherwise one item is consumed either way |
| RingBuffer.NullIntoFreshQueue | ringbuffer.c:33-51 | a fresh queue with one NULL put in answers a get with NULL, as the same fresh queue without it does, although it holds one item and the other none |
| Controls.Stored | controls.c:70-86 | time constants ≤ 0 are stored as 1 (no decay), positive ones as exp(−1000/(48000·v)); pitch bend becomes 2^(v/12); every other id is stored unclamped |
| Controls.UpdateDirect | controls.h:49-51 | writes only the pending value of `id`, with no min/max applied; committed values, velocities, ranges and bindings are unchanged |
| Controls.Offset | controls.h:26-28 | lo + a·x is lo at x = 0, lo + a at x = 1, and stays between them for x in [0, 1] and a ≥ 0 |
| Controls.Scaled | controls.h:26-28 | x = 0 gives min, x = 1 gives max, and x in [0,1] stays within [min, max] |
| Controls.Update | controls.c:88-92 | the pending value of `id` becomes the stored form of min + (max − min)·x; linear ids get exactly min at 0 and max at 1; every other control keeps its pending value |
| Controls.KeyUpdate | controls.c:94-97 | sets only that key's pending velocity; pending values and every other key are unchanged |
| Controls.MidiUpdateFrom | controls.c:101-105 | from a starting id on, updates exactly the controls bound to the controller and keeps all others |
| Controls.MidiUpdate | controls.c:99-106 | every control bound to the controller number is updated (none, one or several) and no other control changes |
| Controls.Commit | controls.c:108-119 | pitchBendPrev becomes the old committed pitch bend; every committed value and velocity equals its pending one; pending values, ranges and bindings are untouched |
| Controls.RecommitChangesOnlyPrev | controls.c:108-119 | a second commit with no edit in between changes only pitchBendPrev, which becomes the pitch bend the first commit published |
| Controls.EditVisibleOnlyAfterCommit | controls.h:29-41 | an edit leaves the committed values alone until the next commit, which then publishes it |
| Controls.SetMax | controls.c:158-164 | changes only max[id], plus min[id] := −value for transpose |
| Controls.ConnectMidi | controls.c:200-203 | changes only the binding of that one control |
| Controls.LoadDefaults | controls.c:6-68 | the default ranges; all bindings −1 and velocities 0; committed equals pending; amplify 1, sustain 0, pitch bend pow(2,0); pitchBendPrev ends as the previously committed pitch bend, because the final commit overwrites the 0 written before it |
| Controls.SampleAmp | controls.c:176-190 | zero RMS gives 0; otherwise amp · rms is the key's target level times vel^gammaAmp, so every sample is normalised to a level that moves linearly from rmsLow at key 21 to rmsHigh at key 108 |
| Controls.AmpTarget | controls.c:182-187 | the target level is rmsLow at key 21 and rmsHigh at key 108 |
| Controls.AmpTargetIsLinear | controls.c:186-187 | every key step changes the target level by the same amount |
| Controls.SamplePan | controls.c:192-198 | the pan is panLow at key 21 and panHigh at key 108 |
| Controls.PanIsLinear | controls.c:192-198 | every key step changes the pan by the same amount |
| SampleStore.Empty | sample.c:66-69 | after init no key has a layer |
| SampleStore.Position | sample.c:396-403 | the velocity's place on the layer scale lies in [0, numLayers], or [0, numLayers − 1] when mixing; it is below numLayers when the velocity is below 1 |
| SampleStore.PrimaryLayer | sample.c:405-409 | the selected layer is an index below numLayers; it is the floor of the position unless the position equals numLayers; velocity 0 picks layer 0 and velocity 1 picks the top layer |
| SampleStore.AdvanceCursor | sample.c:379-382 | only the cursor of that (key, layer) moves, to (rr + 1) mod numSamples |
| SampleStore.GetSamples | sample.c:385-433 | no layers gives no samples and weight 0; otherwise the cursor of the primary layer advances and the first sample is the slot it lands on; a second sample, at the same variation of the layer above, comes iff mixing is on, the primary is below the top and both layers have equal variation counts; its weight is in (0,1], else the weight is 1 |
| SampleStore.VelocityExtremes | sample.c:401-422 | a curved velocity of 0 plays layer 0 alone, and a curved velocity of 1 plays the top layer alone |
| SampleStore.RoundRobinAdvances | sample.c:379-412 | two notes on the same layer return neighbouring variations, modulo the variation count |
| SampleStore.SelectionReadsValues | sample.c:385-433 | the selection reads only the values of the control bank: a bank with the same values selects the same samples, and selects loaded slots if the first did |
| SampleStore.ResetSlotAsWritten | sample.c:47-56 | every slot ends unloaded |
| SampleStore.ResetAsWrittenNeverFrees | sample.c:48-55 | as written, the owner flag is cleared before it is checked, so no buffer is ever freed |
| SampleStore.ResetAsWrittenLeaksOwnedBuffer | sample.c:48-55 | a concrete loaded, owning slot whose buffer the code as written does not free |
| SampleStore.ResetSlot | sample.c:47-56 | the corrected reset frees a buffer iff freeing is asked for and the slot is loaded and owns it |
| SampleStore.OwnedSlots | sample.c:41-59 | the slots the corrected reset frees are exactly the loaded, owning ones |
| SampleStore.FreeData | sample.c:197-200 | with the corrected reset: after freeing, no key has a layer, and the freed slots are exactly the loaded, owning ones |
| SampleStore.FreeDataAsWritten | sample.c:197-200 | as written: after freeing, no key has a layer, and the freed slots are those the as-written reset frees |
| SampleStore.FreeDataAsWrittenLeaks | sample.c:48-55 | the as-written free releases no buffer while the corrected one releases exactly the owned slots; both leave the same empty store |
| SampleLoad.SlotOf | sample.c:80-86 | a slot is designated iff 0 ≤ key ≤ 127, 1 ≤ layer ≤ MAX_LAYERS and 1 ≤ var ≤ MAX_VARS; layer and var are converted to 0-based |
| SampleLoad.ParseFileName | sample.c:75-87 | a parsed slot always lies inside the table |
| SampleLoad.ScanDigits | sample.c:77 | `%d` reads back a run of digits and stops at the first non-digit |
| SampleLoad.ScanDigitName | sample.c:77 | `on-K-L-V…` scans to the three numbers, whatever follows the last digit run |
| SampleLoad.ParseFileNameRoundTrip | sample.c:75-87 | the name built from key, layer and var parses back to the 0-based slot iff all three are in range, and fails otherwise |
| SampleLoad.ParseDigitName | sample.c:75-87 | any name of three digit runs parses to the slot its numbers designate |
| SampleLoad.Classify | sample.c:169-177 | an entry is a file to load iff it is a regular file and its name parses |
| SampleLoad.Decode | sample.c:112-135 | an accepted file gives an owning sample: all its frames plus one zero guard frame, idx0 0, rms 1, speed 2^(semitones/12) |
| SampleLoad.GrowKey | sample.c:179-181 | the key's layer count becomes max(old, layer + 1); new layers are empty; other keys are untouched |
| SampleLoad.GrowLayer | sample.c:182-184 | the layer's variation count becomes max(old, var + 1); new slots are unloaded |
| SampleLoad.Register | sample.c:179-184 | the extents grow to include the slot before the file is read; every existing slot keeps its sample |
| SampleLoad.LoadItem | sample.c:170-187 | a skipped entry changes nothing; naming a loaded slot exits; otherwise the slot gets the decoded sample when the file is stereo 48 kHz, and stays unloaded when it is not |
| SampleLoad.LoadDirectory | sample.c:138-191 | a finished load keeps every slot that was already loaded |
| SampleLoad.LoadPlacesEachFile | sample.c:179-187 | after the load, every accepted file sits in the slot its name designates |
| SampleLoad.LoadedSlotNamedAgainExits | sample.c:91-94 | a later file naming an already loaded slot makes the load exit, whether or not that file would be accepted |
| SampleLoad.DuplicateExits | sample.c:91-94 | two files naming the same slot, the first of them accepted, make the load exit |
| SampleCopy.AsBorrowed | sample.c:319-324 | a copy is the donor sample marked non-owner, with its speed scaled by the retuning ratio |
| SampleCopy.Owners | sample.c:313-317 | the owning variations of a layer, in order |
| SampleCopy.Borrowed | sample.c:309-328 | the copies appended for a layer are all non-owners, one per selected variation, in order |
| SampleCopy.BorrowedOwnedCopiesOwners | sample.c:313-317 | copying with `owned` is copying exactly the owning variations |
| SampleCopy.Copy | sample.c:284-331 | a bad key pair, an empty donor or differing layer counts leave the store unchanged with false; otherwise an empty recipient first takes the donor's layer count and each layer gets the borrowed copies appended; only the recipient changes; true iff something was copied |
| SampleCopy.ExtendsKeepsOwned | sample.c:322 | appending borrowed copies never changes how many variations own a buffer |
| SampleCopy.BorrowStep | sample.c:369-370 | borrowing into a key appends to each of its layers exactly what the donor key lends, keeps every layer count and every other key, and adds at most the donor layer's owners |
| SampleCopy.LentExtends | sample.c:313-317 | what a key lends, copies of its owners, is the same after borrowing has appended copies to the store |
| SampleCopy.Borrow | sample.c:362-373 | maxDist < 1 returns the store unchanged; otherwise every layer keeps its variations and cursor and gets appended, for dist = 1 .. maxDist, the retuned copies of the owners of the same layer at key − dist and then key + dist, when that key has as many layers; no layer gains an owner |
| SampleCopy.FillStep | sample.c:340-344 | an empty key next to a populated one gets layers; a populated key is never touched; an empty donor changes nothing |
| SampleCopy.FillStepCopiesDonor | sample.c:297-327 | an empty key takes every layer of its donor as retuned, non-owning copies with cursors at 0 |
| SampleCopy.FillStepFilledFrom | sample.c:340-352 | a fill step keeps that every key filled so far is a copy of a neighbour, including the key it fills now |
| SampleCopy.FillFromBelow | sample.c:338-345 | the upward loop keeps that property and grows a run of populated keys by one key up |
| SampleCopy.FillFromAbove | sample.c:347-354 | the downward loop keeps that property and grows a run of populated keys by one key down |
| SampleCopy.Fill | sample.c:333-356 | keys that had layers are never touched; every key that gains layers holds a neighbour's layers of the result as retuned, non-owning copies with cursors at 0; if any key 1..126 has layers, every key ends with layers; samples only at keys 0 and 127 are not spread at all |
| SamplePrep.MapSlots | sample.c:226-232 | a per-slot pass keeps the table's shape and transforms every slot inside the extents |
| SamplePrep.Filtered | sample.c:439-449 | the filtered sample owns a fresh buffer of the same length; with order ≥ 1 its first len frames are the filter's output and the guard frame is kept; with order < 1 every value is kept; nothing else changes |
| SamplePrep.FakeKey | sample.c:458-468 | an eligible key ends with two well-formed layers |
| SamplePrep.FakeRcLayer | sample.c:451-470 | only keys with exactly one non-empty layer change: they get two layers; layer 1 holds the original variations with cursor 0, and layer 0 holds their filtered, owning copies with its cursor kept |
| SamplePrep.FakeRcLayerOnce | sample.c:454-458 | afterwards no key is eligible, so running the stage again changes nothing |
| SamplePrep.FakeLayersMix | sample.c:461 | the two layers of a faked key have equal variation counts, so mixing pairs them |
| SamplePrep.FirstLoud | sample.c:210-216 | the index is the smallest frame at or after the start where a channel is ≥ th or ≤ −th, or len when there is none |
| SamplePrep.CropThreshold | sample.c:222 | a non-negative threshold becomes the truncated int16 level thF / INT16_SCALE |
| SamplePrep.CropSample | sample.c:206-218 | only idx0 changes; no frame before it is loud, and the frame at idx0 is loud unless idx0 = len |
| SamplePrep.Crop | sample.c:220-233 | every slot inside the extents is cropped at the same threshold; the shape is kept |
| SamplePrep.CropIdempotent | sample.c:206-233 | cropping twice is cropping once |
| SamplePrep.NonPositiveThresholdKeepsAll | sample.c:210-214 | with th ≤ 0 a non-empty sample keeps every frame (idx0 = 0) |
| SamplePrep.RmsFrames | sample.c:267 | a non-negative window time gives a non-negative frame count |
| SamplePrep.WindowEnd | sample.c:241-246 | the window ends at twice min(idx0 + di, len), inside the buffer |
| SamplePrep.RmsWindow | sample.c:241-253 | the intended window covers both channels of frames idx0 .. min(idx0 + di, len) − 1, and is non-empty iff di > 0 and idx0 < len |
| SamplePrep.RmsSeesOnlyWindow | sample.c:239-262 | the intended RMS depends only on the values inside the window |
| SamplePrep.RmsAsWrittenCountsLeadIn | sample.c:253 | as written, the sum starts at interleaved index idx0 and counts frames before playback starts: two samples that differ only there get different sums, but the same intended RMS |
| SamplePrep.WithRms | sample.c:259-261 | only the rms field changes |
| SamplePrep.ComputeRms | sample.c:264-277 | every slot inside the extents gets the RMS of the corrected window, the first dt seconds from frame idx0 on; the shape is kept |
| Voice.Start | sampler.c:224-238 | the voice starts at idx0 with amp = sample_amp · mix and the key's pan; its fade-in level is 0 iff the committed fade-in factor is exactly 1, else 1 |
| Voice.NoFadeInPlaysAtOnce | sampler.c:233-237 | with fade-in factor 1, the level `_load_ps` picks plays every frame at the full decayed gain, while a level of 1 would silence the voice for good |
| Voice.SettingFor | sampler.c:355-362 | the release decay applies iff the sustain is ≤ 0.5 and the key's committed velocity is 0; otherwise the factor is 1 |
| Voice.Advance | sampler.c:365-383 | one frame decays the gain and the fade-in level by their factors and moves the position by the current bend times the sample speed |
| Voice.Play | sampler.c:364-389 | at most n frames, exactly n unless the sample ended, at least one when it ended |
| Voice.PlayStopsAtEnd | sampler.c:385-388 | the loop stops right after the first frame whose advance reaches len; every earlier frame starts below len |
| Voice.PlayKeepsVoice | sampler.c:364-389 | playing changes only the position, the gain and the fade-in level of the voice |
| Voice.PlayPosition | sampler.c:382-383 | after j frames the position has followed the pitch-bend ramp |
| Voice.PositionClosedForm | sampler.c:382-383 | the ramp position is idx + speed·(j·pb + slope·j(j−1)/2) |
| Voice.PlayGainDecays | sampler.c:366 | after j frames the gain has been multiplied j times by the release factor |
| Voice.DecayedClosedForm | sampler.c:366 | decaying j times by t is scaling by t^j |
| Voice.PlayFadeDecays | sampler.c:369 | after j frames the fade-in level has been multiplied j times by its factor |
| Voice.PlayEndsAtFirstCrossing | sampler.c:382-388 | the voice ends in the first frame whose ramp position reaches len, and never earlier |
| Voice.PlayFrame | sampler.c:371-379 | frame j of the output is the interpolated sample at the j-th ramp position, scaled by the j-th gain |
| Voice.Process | sampler.c:347-392 | the block is played by the corrected loop `PlayChecked`; a voice is finished iff it played past the end of its sample or its gain is below MIN_AMP at the end of the block |
| Voice.HeldVoiceKeepsGain | sampler.c:360-362 | a held voice (sustain down or key pressed) keeps its gain and finishes only at the sample's end or if its gain was already below MIN_AMP |
| Voice.BendSlope | sampler.c:416-418 | n frames of the slope take the bend from pb0 to pb1 |
| Voice.SilentSampleReadsPastEnd | sampler.c:364-372 | as written, a voice on a sample cropped to idx0 = len makes its first read at idx0, past the len + 1 frames of the buffer |
| Voice.PlayChecked | sampler.c:364-389 | the corrected loop: a voice at or past the end reads nothing and ends; otherwise it plays as in Play; every frame it reads starts below len; it changes only the position, gain and fade-in level |
| Voice.BelowEndReadsInside | sample.c:20-33 | a read at a position in [0, len) of a loaded sample stays inside its len + 1 frames |
| Voice.CheckedReadsInside | sample.c:20-33 | with the corrected loop every read at a non-negative position stays inside the buffer, and a voice on a fully cropped sample reads nothing |
| Sampler.PairedBound | sampler.c:38-41 | psNew holds at most two items per voice, plus one stray placeholder |
| Sampler.Init | sampler.c:14-73 | the engine starts stopped with defaults and an empty store; psPlaying and psNew are empty; psRecycle holds RING_BUF_SIZE fresh voices, or as many as fit; the invariant holds |
| Sampler.JackCapacitiesFit | sampler.c:40-49 | with JACK's real capacities every voice fits in every queue, and one of the RING_BUF_SIZE voices never reaches psRecycle |
| Sampler.GetPeaks | sampler.c:80-85 | returns the peak and resets it to 0, nothing else changes |
| Sampler.NumPlaying | sampler.c:87-90 | the count of psPlaying is the number of voices playing |
| Sampler.HandoffPool | sampler.c:261-282 | moving handles from psRecycle to psNew keeps the set of voices in circulation |
| Sampler.HandoffKeepsInv | sampler.c:261-282 | a hand-off of playable voices keeps the invariant and the pool |
| Sampler.HandoffTwice | sampler.c:267-282 | two single hand-offs in a row are one hand-off of the pair |
| Sampler.Launch | sampler.c:261-268 | the front voice of psRecycle is loaded and pushed to psNew; the invariant and the pool are kept |
| Sampler.Unpaired | sampler.c:270-273 | a voice without a partner is followed by a NULL placeholder |
| Sampler.UnpairedKeepsInv | sampler.c:270-273 | the NULL placeholder after a lone voice completes a single hand-off and keeps the invariant and the pool |
| Sampler.Partner | sampler.c:275-282 | the second voice is pushed iff psRecycle held at least two voices; with only one, the first voice goes without its partner |
| Sampler.Launched | sampler.c:261-283 | with a free voice the push is (voice, NULL) for one sample, (voice, voice) for two with enough voices, and a lone voice when psRecycle runs dry in between |
| Sampler.Dispatch | sampler.c:254-283 | nothing is pushed iff no sample was chosen or psRecycle is empty; otherwise the pushes above; the pushed voices carry the chosen samples with weights mix and 1 − mix |
| Sampler.HandoffFits | sampler.c:38-41 | psNew always has room for what a note-on pushes |
| Sampler.NoteOn | sampler.c:241-283 | the transposed key's pending velocity is always recorded; velocity 0 pushes nothing and changes nothing else; otherwise the samples are chosen and dispatched; invariant and pool are kept |
| Sampler.Strike | sampler.c:254-283 | a struck key pushes a voice exactly when it has a layer and psRecycle has a voice; the layer's cursor moves either way |
| Sampler.Selected | sampler.c:255-259 | a first sample is chosen iff the key has a layer; a second only with a first; both are slots of the store |
| Block.DrainStep | sampler.c:409-412 | one turn moves the front item of psNew to the back of psPlaying, dropping a NULL |
| Block.PlayingRoom | sampler.c:411 | the put into psPlaying never fails while psNew holds a voice |
| Block.Drain | sampler.c:408-413 | k turns move the first k items of psNew, NULLs dropped, to psPlaying; invariant and pool are kept |
| Block.Whole | sampler.c:406-407 | the drained count is even and leaves count mod 2 items |
| Block.DrainPairs | sampler.c:406-413 | only whole pairs are drained; at most one item stays in psNew |
| Block.Run | sampler.c:424 | playing a voice keeps its key and sample and writes at most n frames |
| Block.RecycleRoom | sampler.c:425 | the put into psRecycle never fails while psPlaying holds a voice |
| Block.RotateStep | sampler.c:423-428 | one turn plays the front voice and puts it on psRecycle if finished, back on psPlaying otherwise |
| Block.RotateKeepsInv | sampler.c:422-429 | a turn keeps the invariant and the set of voices |
| Block.Rotate | sampler.c:421-429 | after the loop every voice that was playing has been played exactly once; the finished ones are on psRecycle and the others on psPlaying, both in order; the pool is conserved |
| Block.KeptRetired | sampler.c:424-428 | every played voice goes exactly one way: kept iff not finished, retired iff finished, and kept + retired = played as multisets |
| Block.MixedSum | sampler.c:379 | each mix frame is the old frame plus the sum of every voice's frame, whatever the order of play |
| Block.PeakBounds | sampler.c:444 | the peak is at least the old peak and every output frame, per channel, and equals one of them (a signed maximum, not an absolute value) |
| Block.PassOf | sampler.c:416-418 | the block's bend starts at the previous committed bend and reaches the new one after n frames |
| Block.Silent | sampler.c:400 | the mix buffer starts as n frames of silence |
| Block.ToPorts | sampler.c:438-441 | each port frame is the mix frame scaled by INT16_SCALE |
| Block.AllScheduled | sampler.c:406-421 | after the drain, psPlaying holds exactly the voices that were playing, followed by the voices of the drained pairs |
| Block.OutputSum | sampler.c:438-441 | each output frame is the scaled sum of the voices' frames |
| Block.Mix | sampler.c:396-445 | a block on a running engine plays each scheduled voice once from the committed controls; finished voices are retired; the output is the scaled sum; the peak is updated |
| Block.Process | sampler.c:394-448 | the controls are committed; a running engine is processed as above; any other state outputs silence and leaves the queues alone; the invariant and pool are kept |
| Lifecycle.Load | sampler.c:92-167 | BadState iff not stopped, with nothing changed; BadDir iff a chdir fails, back to Stopped (the defaults already loaded if the first succeeded); otherwise the samples are loaded and faked (only if the order ≠ 0), then borrowed (each layer gets exactly what its neighbours lend), filled (each filled key copies a neighbour; coverage as for Fill), cropped and measured with the corrected RMS window, in that order, ending Running with default controls |
| Lifecycle.Unqueue | sampler.c:177-187 | the first k items leave the queue; their voices go in order to psRecycle and NULLs are dropped |
| Lifecycle.UnloadQueues | sampler.c:206-209 | psPlaying and psNew end empty; psRecycle gets their voices in order; the pool is kept |
| Lifecycle.Unload | sampler.c:189-213 | BadState iff not running, changing nothing; otherwise the engine stops, the queues are emptied into psRecycle, the store has no layers, and with the corrected reset the freed slots are exactly the loaded, owning ones |
| Lifecycle.UnloadRecyclesAll | sampler.c:206-209 | after an unload every voice in circulation is on psRecycle, once |
| Lifecycle.UnloadTwice | sampler.c:191-193 | a second unload is refused and changes nothing |
| Midi.NoteOf | sampler.c:325-332 | a note-on plays velocity/127 and a note-off plays velocity 0, on the event's note |
| Midi.Controller | sampler.c:333-336 | a controller value out of 127 goes to every control bound to that controller, and to no other |
| Midi.Bend | sampler.c:337-341 | a pitch-bend value out of 8192 becomes the pending pitch bend; nothing else changes |
| Midi.OnEvent | sampler.c:313-343 | events are ignored unless the engine runs; notes go to the note handler; controller and bend events change pending controls only and push nothing; invariant and pool are kept |
| Midi.NoteOffReleases | sampler.c:330-332 | a note-off pushes nothing and records velocity 0 for its transposed key |

## Left out

- JACK, ALSA, pthreads and the mutex are left out: everything is
  sequential, and the single-producer/single-consumer queues are plain
  FIFOs.
- `sampler_init` is only partly modelled. It creates threads, a JACK client
  and ports, and `Sampler.Init` keeps only its effect on the engine. The
  queue capacities JACK really gives are parameters.
- Of `sampler_midi_thread`, only the event switch is kept. Opening the
  sequencer and read errors are not modelled; events arrive as values.
- The waveform arithmetic is left out. `sample_interp` is a parameter, and
  the (float) conversion of the port values is read as exact.
  The filter arithmetic of `rcLowPass` is a parameter of the synthetic
  layer; the model keeps only that it runs `order` passes over the first
  len frames (rclowpass.c:39-56) and leaves the guard frame alone.
- `_load_sample` only partly modelled. Its libsndfile reading becomes an
  `AudioFile` value. The `readdir` scan and its OpenMP critical section
  are a list of entries.
- Tuning per file comes from conftuning.c, which is not part of this model.
  It arrives as the entry's semitone offset.
- The config files (confconfig.c, confcontrols.c) and their file I/O are
  left out. Their settings are the `Config` parameter. `Lifecycle.Load`
  gives the controls their defaults, and not the overrides
  `confctrls_load("controls.conf")` would apply.
- Lifecycle.Load: each stage's outcome is stated against the previous one,
  but a loaded directory that breaks a demand of a later stage is reported
  as `Undefined` rather than modelled.
  - The synthetic layer needs every variation loaded.
  - Borrowing needs layers to stay within MAX_VARS (`BorrowFits`), a
    sufficient budget and not the exact overflow condition.
  - The C code reads or writes out of bounds there.
- `ctrls_value_gui` and the save/load of controls depend on log/exp being
  inverses in floating point, so they are left out.
- The `chdir("../")` warning, `printf`, `sleep(1)` and
  `jack_activate`/`jack_deactivate` have no effect on the modelled state.
- The GUI (gui.c) and mem.c are left out.
- The transient Loading and Unloading states of a load or an unload are
  not observable between calls. They appear only as the end state of a load
  that exits the process.
- SampleStore.GetSamples, Sampler.NoteOn and Midi.OnEvent have
  preconditions that the source does not check. The curved velocity must
  lie in [0,1], the selected layer must be non-empty (otherwise the cursor
  update takes a modulo by zero), and the transposed key must index the
  key tables.
- SamplePrep.ComputeRms: measures the corrected window, which starts at
  interleaved index 2·idx0; the code as written starts at idx0 (see
  Findings, `SamplePrep.RmsAsWritten`). The source also divides by a zero
  count for an empty window, giving NaN; the model gives 0 there.
- Lifecycle.Load: its RMS stage is `SamplePrep.ComputeRms`, so it promises
  the corrected window and not the as-written one.
- SampleStore.FreeData: frees with the corrected reset. As written,
  `sstore_free_data` frees no buffer at all (see Findings,
  `SampleStore.FreeDataAsWritten`).
- Lifecycle.Unload: frees through `SampleStore.FreeData`, so its freed set
  is that of the corrected reset; the code as written leaks every owned
  buffer.
- SampleCopy.Borrow: requires `BorrowFits`, at most
  MAX_VARS / (2·maxDist + 1) variations in every layer. That is a
  sufficient bound, stricter than the source's real condition, which is
  only that no layer outgrows MAX_VARS on the way.
- Sampler.NoteOn, Sampler.Strike and Midi.OnEvent require that the slots a
  note selects hold data (`SampleStore.SelectsLoaded`), and so every queued
  voice plays a loaded slot. The source does not check this. A gap in the
  variation numbers, a file rejected as not stereo or not 48 kHz
  (sample.c:102-110), or a fill copy of such a slot leaves data NULL, and
  `sample_interp` (sample.c:25) then reads through NULL. The model promises
  nothing for such a note.
- SampleLoad.ScanDigits: reads a `%d` field as an unbounded integer. The C
  `int` of `sscanf` overflows on a very long run of digits, and that
  overflow is not modelled.
- Voice.Process: plays the corrected loop `Voice.PlayChecked`, so a voice
  that starts at the end of its sample ends without output. As written it
  reads past the buffer first (see Findings, `Voice.SilentSampleReadsPastEnd`).
  The block model, `Block.Run` and everything built on it inherit this.
- Reads at a negative position are not ruled out: the model does not bound
  the pitch bend or the speed, so it promises in-bounds reads only at
  non-negative positions.

## Findings

| source | as written | input that shows it | evidently intended | confidence | as-written member | corrected member |
|---|---|---|---|---|---|---|
| sample.c:48-55 | `owner` is cleared before `freeMem && data != NULL && owner` is checked, so `sstore_free_data` never frees a buffer | any loaded owning slot, e.g. one frame of data, when an unload runs | check the owner flag before clearing it, so exactly the loaded owning slots are freed | not executed | SampleStore.ResetAsWrittenLeaksOwnedBuffer | SampleStore.ResetSlot |
| sample.c:241-253 | the RMS loop starts at interleaved index idx0, i.e. frame idx0/2, but ends at interleaved index 2·min(idx0+di, len) | len 4, idx0 2, di 1: the sum covers frames 1 and 2, so a click in frame 1 before playback starts changes the RMS | the window is both channels of frames idx0 .. min(idx0+di, len)−1, starting at index 2·idx0 | not executed | SamplePrep.RmsAsWrittenCountsLeadIn | SamplePrep.RmsWindow |
| sampler.c:364-386 | `_proc_ps` calls `sample_interp` (sample.c:20-33) at ps->idx before its end test, so a voice that starts at idx0 = len reads frames len and len + 1 of a buffer of len + 1 frames | a sample whose every frame is below the crop threshold: cropping sets idx0 = len (sample.c:206-218), and its first note reads past the buffer | test the end before the first read, so such a voice ends without reading | not executed | Voice.SilentSampleReadsPastEnd | Voice.CheckedReadsInside |
