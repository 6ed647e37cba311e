# Telemax, modelled

Telemax is a bridge between the messengers MAX and Telegram. This project models the parts of it that keep state across
time, crashes and interleavings, and the transformations that have to be undone or repeated exactly, and proves what
they promise. Each Dafny module stands for one or two source files.

| module | models |
|---|---|
| `Waveform` | the recorder's accounting of a voice or video note: reads, ticks, normalisation, 80 bars |
| `Albums` | the album collector: arrivals, re-armed timers, pop-then-flush, durable parts, crash, restore, drain |
| `StateFiles` | files kept with a copy, the device identity and the launch counter, cut at any file replacement |
| `InteractivePings` | the ping loop that tells MAX whether the owner is there, against a plain function of time |
| `CreatingSend` | sends that make a message, their fallback and the circuit breaker of native media |
| `HistoryPaging` | paging back through a chat |
| `Provisioning` | one bridge per contact, journaled, over any runs, restarts and port failures |
| `Markdown` | formatting ranges over UTF-16 units rendered as markdown, and carried between the protocols |
| `Presentation` | stamps, forward lines and edit marks, drawn and taken off again |
| `Documents`, `ConfigEditor` | editing `config.yaml` and `.env` by the line |
| `Delivery` | the attachments of one message put into Telegram |
| `Onboarding` | one record, several stores |
| `Capacity` | the bot slots a selection may take |
| `Text`, `Arithmetic`, `Sequences`, `Wrappers` | shared helpers |

Where the source changes fields step by step there is a class or a method with the same steps, and its contract ties it
to a specification function; the properties are proved of those functions. Asynchronous code is a state machine over
the steps between awaits. What lies outside (servers, clocks, file system, people) answers through parameters. Several
modules describe a whole walk as a sequence of acts: a crash or an error that escapes leaves a prefix of it.

Floating point is replaced by exact arithmetic, and the logarithm of the decibel curve by any function of the same
order that is 0 at full scale.

## Where the code does not keep what its documentation says

Each of these is a lemma with the exact condition or a witness.

* `bridge/max_client/state_files.py:38-40` says one of the two files is complete at any instant. That holds exactly when
  the primary is not torn: recovery first copies the torn text over the good copy (`StateFiles.OneFileIsAlwaysComplete`,
  `StateFiles.LosingRun`), and the copy it leaves behind stays torn (`StateFiles.SecondTearIsFatal`).
* `bridge/max_client/identity.py:124` says never to hand back an identity that is not on disk. A refused write is
  logged and the drawn identity handed back; exactly when that breaks the rule is `StateFiles.ReturnedIsOnDisk`, with
  the run `StateFiles.RefusedFirstWrite`.
* `bridge/max_client/state_files.py:154-181` falls back to the copy where the primary cannot be used. Bytes that are not
  UTF-8 raise an error the handlers do not name, so the copy is never reached (`StateFiles.GarbledForEver`).
* `bridge/media/upload.py:161-166` puts the parts on disk so that none is lost. Clearing the whole group after a flush
  erases parts that came after the pop. `Albums.QuietIsExact` says exactly which events put a part at risk, and
  `Albums.LatePartRun`, `Albums.BetweenHalvesRun`, `Albums.LeftoverRun` and `Albums.ReplayRun` reach each kind from an
  empty collector.
* `bridge/max_client/interactive.py:121-122` raises the flag at once on a touch. A touch while a send is in flight has
  its wake-up cleared (`InteractivePings.WakeUpLostDuringSend`).
* `bridge/provisioning/batch.py:445-446` lets the old worker go before the new one starts. If `stop_bridge` raises, or
  the process dies before it, the token is already noted and the next turn starts the worker without that stop. Exactly
  when is `Provisioning.StartsUnstoppedExactlyWhen`, reached by `Provisioning.StartedWithoutAStop`. Two workers do not
  follow: `start_worker` itself first removes a running one (`bridge/service/runtime.py:1164-1166`, not part of this
  model).
* `bridge/media/delivery.py:515-518` announces a send after every attachment has been fetched. It does so under the
  condition of `Delivery.FetchedBeforeSent`. An album of which nothing fits loses its caption
  (`Delivery.CaptionOfOversizedPhotos`). A member of an album that names no source ends the whole delivery
  (`bridge/media/delivery.py:661-672` catches only the size limit), where a single attachment without one becomes a
  notice; so each attachment is handled exactly under the condition of `Delivery.EachIsHandledOnce`.
* `bridge/formatting/elements.py:179` sorts "innermost first, so nesting survives". The order puts the outer range first
  and the inner one is dropped (`Markdown.NestedPair`); everything is rendered exactly when no two ranges overlap
  (`Markdown.AllAreRenderedExactlyWhen`).
* `bridge/config/writer.py:191-192` replaces any previous value of a secret, and `bridge/config/writer.py:70-75` sets a
  value. Both edit the first line of the name, while the program reads its files with `load_dotenv` and `yaml.safe_load`
  (`bridge/config/loader.py:48`, `bridge/config/loader.py:260`), in which the last of repeated names wins. Exactly when
  the new value is read is `ConfigEditor.SecretReadsBack`, `ConfigEditor.SecretAfterRestart` and
  `ConfigEditor.SetReadsBack`; the failing files are `ConfigEditor.RepeatedSecret`, `ConfigEditor.RepeatedKey` and
  `ConfigEditor.RepeatedSection`. A nested line of the name can be taken for the key
  (`ConfigEditor.NestedLineIsReplaced`), and a bridge that is listed twice stays (`ConfigEditor.BridgeIsForgotten`).
* `bridge/config/writer.py:211-216` gives back the state before a cancelled setup. A file of blank lines only is removed
  instead (`ConfigEditor.UnsetUndoesSet`).

## Model

| member | source | states |
|---|---|---|
| `Waveform.PeakOf` | bridge/media/native_max.py:220-221 | the loudest sample of a read: an upper bound of all absolute values that one sample attains, within full scale |
| `Waveform.Rms` | bridge/media/native_max.py:222 | the truncated root mean square, fixed by `r²·n ≤ Σs² < (r+1)²·n` |
| `Waveform.SquaresAdd` | bridge/media/native_max.py:222 | the sum of squares counts each sample once, with its square |
| `Waveform.AmplitudeIs` | bridge/media/native_max.py:220-222 | a circle reads the loudest sample, a voice the truncated root of the mean square |
| `Waveform.DecibelTickIs` | bridge/media/native_max.py:225-230 | the curve from amplitude to tick rises from 0 at 45 dB under full scale to 32768 at full scale, in steps of 45/32768 dB rounded down |
| `Waveform.LoudestIsTheMaximum` | bridge/media/native_max.py:151-160 | the running maximum of a tick is the greatest amplitude among the whole reads that start inside its window |
| `Waveform.OneTickFires` | bridge/media/native_max.py:153-161 | a read that reaches the next tick fires exactly one tick, worth the loudest read since the last, and clears the maximum |
| `Waveform.ClosedFormStep` | bridge/media/native_max.py:150-161 | after any number of whole reads the nested loops stand at the closed form; at most one tick per read because a read is no longer than a tick |
| `Waveform.ClosedForm` | bridge/media/native_max.py:150-161 | total = reads × chunk, ticks fired = ⌊total/step⌋, tick k is the loudest read of window k, and the next tick is still ahead |
| `Waveform.AfterIsStable` | bridge/media/native_max.py:144-146 | samples that come later never change what was measured |
| `Waveform.NextRead` | bridge/media/native_max.py:150-162 | the kept remainder is exactly the unmeasured end of the stream, and one more read advances the state by one read of the stream |
| `Waveform.WholeReadsIs` | bridge/media/native_max.py:150 | the number of whole reads is ⌊length/chunk⌋ |
| `Waveform.StridesAre` | bridge/media/native_max.py:131-139 | a read is 20 ms and a tick 75 ms of samples, rounded down, and a sample at least |
| `Waveform.TicksOfStream` | bridge/media/native_max.py:150-170 | the ticks of a stream: for each whole tick window the curve of the loudest read that begins in it, and one more exactly where something is heard after the last |
| `Waveform.RecorderFor` | bridge/media/native_max.py:131-139 | the builder of a rate reads at most one tick at a time, with the amplitude its kind asks for |
| `Waveform.WaveBuilder.constructor` | bridge/media/native_max.py:131-139 | a new builder has heard nothing and satisfies the invariant |
| `Waveform.WaveBuilder.Measure` | bridge/media/native_max.py:151-161 | one read: the state becomes the specified next state, through the inner tick loop |
| `Waveform.WaveBuilder.MeasureAll` | bridge/media/native_max.py:149-161 | the outer loop takes every whole read in order and stops at the remainder |
| `Waveform.WaveBuilder.Feed` | bridge/media/native_max.py:141-162 | the state stays a function of everything fed so far, so how the stream was cut into pieces does not matter |
| `Waveform.WaveBuilder.Finish` | bridge/media/native_max.py:164-170 | the bars are the specified function of the whole stream; the last partial tick is added once |
| `Waveform.NormalisationIsTame` | bridge/media/native_max.py:233-237 | normalisation is monotone, stays within seven bits, and never scales up by more than 2 |
| `Waveform.RawByteIs` | bridge/media/native_max.py:233-237 | the byte of a tick: 127, or the floor of 2v/256 where the loudest tick is at most half of full scale, and else of 32768v/(256·peak) |
| `Waveform.RawWaveIsSevenBit` | bridge/media/native_max.py:233-237 | every byte of the normalised array is in 0..127 |
| `Waveform.BlendIsBetween` | bridge/media/native_max.py:269 | an interpolated bar lies between its two neighbours |
| `Waveform.BarsAreTame` | bridge/media/native_max.py:246-271 | first and last bar are the source ends; each other bar lies between the neighbours it falls between, or is 0 exactly on the final pair |
| `Waveform.BarIs` | bridge/media/native_max.py:256-271 | each bar: a source end, the point of the line between two neighbours rounded down, or 0 on the final pair |
| `Waveform.Resample` | bridge/media/native_max.py:246-271 | the filled buffer is the specified bars |
| `Waveform.EightyBars` | bridge/media/native_max.py:164-170 | nothing, or exactly 80 bars in 0..127 |
| `Waveform.BarsOfStream` | bridge/media/native_max.py:164-170 | `finish` gives nothing without a tick, and else the 80 bars of the bytes of the ticks |
| `Waveform.WaveOfStream` | bridge/media/native_max.py:173-211 | the same of the whole track, with 80 zeros where there is no tick at all |
| `Waveform.JoinedIs` | bridge/media/native_max.py:190-205 | the track is the frames one after the other |
| `Waveform.NothingToShow` | bridge/media/native_max.py:166-169 | nothing exactly when no tick came due and every whole read was silent |
| `Waveform.Probe` | bridge/media/native_max.py:173-211 | decoding frame by frame at 16 000 samples a second gives the waveform of the joined frames under the decibel curve, and always 80 seven-bit bars |
| `Albums.RebuiltIsLive` | bridge/media/upload.py:216-231 | the album `restore` folds equals the live one in items, caption, forward line and first id; entirely, if and only if the first part carried a reply target or none did |
| `Albums.LiveCarries` | bridge/media/upload.py:216-231 | a live album holds the item of every part in order, the first caption and the first forward line that is not empty, and the id and reply target of its first part |
| `Albums.RebuiltCarries` | bridge/media/upload.py:273-300 | a restored album holds the same, and the reply target of the first part that has one |
| `Albums.StepConserves` | bridge/media/upload.py:216-252 | every step keeps: accepted parts of a group = handed over, then open, then waiting, in order |
| `Albums.StepKeepsTimers` | bridge/media/upload.py:233-245 | every step keeps exactly one armed timer per open group |
| `Albums.StepKeepsAlbums` | bridge/media/upload.py:216-231 | every open album is the live fold of its parts |
| `Albums.StepKeepsOrder` | bridge/media/upload.py:181-252 | the three invariants together, for every undisturbed step |
| `Albums.ExactlyOnce` | bridge/media/upload.py:181-252 | in every crash-free interleaving the invariants hold throughout |
| `Albums.AllHandedOver` | bridge/media/upload.py:314-324 | once nothing is open, each accepted part has been handed to `flush` exactly once, in order |
| `Albums.EveryItemIsSent` | bridge/media/upload.py:181-252 | of the albums themselves: each one open or handed over carries its parts, and once nothing is open `flush` was given the item of each accepted part exactly once, in order |
| `Albums.AdmitRearms` | bridge/media/upload.py:216-235 | each admitted part starts the window of its group anew |
| `Albums.DrainRound` | bridge/media/upload.py:316-324 | one round of an undisturbed drain, its flush and clear ending well or not, keeps the invariants, closes exactly that group, and leaves it on disk unless both ended well |
| `Albums.StepIsDurable` | bridge/media/upload.py:194-261 | every quiet step keeps the invariant: each accepted part is on disk or was sent, and no clear that can follow a flush under way, or of an open album, erases a part that was not sent |
| `Albums.QuietRunsLoseNothing` | bridge/media/upload.py:194-303 | in every run of quiet events, with crashes, restarts, failed flushes and failed clears, no accepted part is lost. Quiet means: a part is stored only if it is recorded already, or if all that is stored beyond the open album was sent and no album of the group is under way (or the part itself was sent before); a group is popped only with no `add` between its halves, or where that part is of no matter. Every other event is quiet |
| `Albums.QuietIsExact` | bridge/media/upload.py:194-303 | and nothing weaker will do: in a durable state an event is quiet if and only if no quiet continuation of it loses an accepted part |
| `Albums.QuietRunsExactlyWhen` | bridge/media/upload.py:194-303 | a run is quiet if and only if after each of its events no quiet continuation loses an accepted part |
| `Albums.MatchesExactlyWhen` | bridge/media/upload.py:194-303 | for one group, memory and store stay the same parts in the same order if and only if it is not stored beside leftovers, not popped or restored between the halves of an `add`, and not cleared while some of it is in memory |
| `Albums.CrashThenRestore` | bridge/media/upload.py:263-303 | where memory and store of a group match, a crash and a restore give the open group its parts back, and the same album exactly under the reply-target condition |
| `Albums.StepStoresOnce` | bridge/media/upload.py:205-214 | no step, crash or restart lets the store hold one message twice |
| `Albums.RestoredIsSent` | bridge/media/upload.py:263-312 | what is left on disk is sent after a restart: restored, armed, fired, flushed and cleared |
| `Albums.LatePartIsErased` | bridge/media/upload.py:244-261 | from any durable state, a part stored while its group is being sent, or being cleared, is erased by the clear of the whole group |
| `Albums.PartBetweenHalvesIsErased` | bridge/media/upload.py:194-235 | so is a part stored but not yet admitted when its group is popped, or what was popped, by the album that part opens |
| `Albums.LeftoverIsErased` | bridge/media/upload.py:249-261 | and a part that a failed flush or a crash left behind, once another part of the group is stored beside it |
| `Albums.LatePartRun` | bridge/media/upload.py:244-261 | from the empty collector: open, pop, store another part during the flush or after it, and that part is lost |
| `Albums.BetweenHalvesRun` | bridge/media/upload.py:194-250 | from the empty collector: a second part is stored, the window closes or a drain comes before it is admitted, and it is lost |
| `Albums.LeftoverRun` | bridge/media/upload.py:249-261 | from the empty collector: a failed flush, or a crash, then another part of the album, and the first part is lost |
| `Albums.ReplayRun` | bridge/media/upload.py:194-261 | from the empty collector: a part already sent and cleared comes again beside another, the group is popped between the halves of that `add`, and the other part is lost |
| `Albums.AlbumCollector.constructor` | bridge/media/upload.py:169-179 | an empty collector |
| `Albums.AlbumCollector.AddPart` | bridge/media/upload.py:194-214 | `add` up to the store: the answer is fresh exactly when the part was not recorded |
| `Albums.AlbumCollector.Admit` | bridge/media/upload.py:216-235 | `add` after a fresh answer is the specified step |
| `Albums.AlbumCollector.Arm` | bridge/media/upload.py:233-235 | the old timer is cancelled and one new one armed |
| `Albums.AlbumCollector.HandOver` | bridge/media/upload.py:244-248 | the group leaves memory and is on its way |
| `Albums.AlbumCollector.Fire` | bridge/media/upload.py:237-248 | an expired timer is the specified step |
| `Albums.AlbumCollector.DrainOne` | bridge/media/upload.py:316-323 | one group of `drain` is the specified step |
| `Albums.AlbumCollector.DrainGroup` | bridge/media/upload.py:316-324 | a group of `drain` with its flush and clear is the specified round |
| `Albums.AlbumCollector.FlushEnded` | bridge/media/upload.py:247-251 | a flush that ends, well or not, is the specified step |
| `Albums.AlbumCollector.ForgetGroup` | bridge/media/upload.py:254-261 | `_forget` clears the whole group, whatever it holds by then |
| `Albums.AlbumCollector.Die` | bridge/media/upload.py:161-166 | a crash loses memory and keeps the store |
| `Albums.AlbumCollector.RestoreGroup` | bridge/media/upload.py:270-303 | folding what the store returns, part by part, is the specified rebuilt album |
| `Albums.AlbumCollector.RearmGroup` | bridge/media/upload.py:305-312 | `rearm` is the specified step |
| `Albums.AlbumCollector.DrainAll` | bridge/media/upload.py:314-324 | the drain ends with a raise if and only if the flush of some open group raises; otherwise nothing is open and every accepted part was handed over exactly once. Each group reached was sent, and erased unless its clear raised; each group not reached is still open |
| `StateFiles.OneFileIsAlwaysComplete` | bridge/max_client/state_files.py:38-40 | the documented claim that one of the two files is always complete holds during a write if and only if the primary was not torn |
| `StateFiles.WriteOutcomes` | bridge/max_client/state_files.py:72-86 | everything a write can leave behind, cut or refused at any replacement |
| `StateFiles.StateFile.constructor` | bridge/max_client/state_files.py:57-86 | the two files of a name |
| `StateFiles.StateFile.Replace` | bridge/max_client/state_files.py:122-135 | one replacement happens wholly, not at all, or the machine stops |
| `StateFiles.StateFile.WriteAtomic` | bridge/max_client/state_files.py:57-86 | copy first, then the primary, then the seed of a missing copy |
| `StateFiles.StateFile.EnsureBackup` | bridge/max_client/state_files.py:89-110 | only the copy is written, and only when it is missing |
| `StateFiles.StateFile.ReadWithBackup` | bridge/max_client/state_files.py:154-181 | the primary if it parses, else the copy, and whether it was the copy; bytes that are not UTF-8, in whichever file is reached, raise out of the reader |
| `StateFiles.StateFile.LoadOrCreate` | bridge/max_client/identity.py:106-177 | reading, repairing and drawing are the specified launch |
| `StateFiles.LaunchKeeps` | bridge/max_client/identity.py:136-156 | a launch cut anywhere keeps a stored identity and returns it or nothing |
| `StateFiles.IdentityIs` | bridge/max_client/identity.py:106-177 | which identity a launch returns: the good primary, else the good copy, a drawn one on an empty disk and only there, and else the legacy one; none exactly when reading raises or the machine stops |
| `StateFiles.LaunchLeaves` | bridge/max_client/identity.py:136-177 | what an undisturbed launch leaves in the primary and in the copy |
| `StateFiles.KeptForEver` | bridge/max_client/identity.py:106-177 | so does every run of launches, crashes and refused writes |
| `StateFiles.StoredIdentitySurvives` | bridge/max_client/identity.py:124-130 | a stored identity survives every run if and only if the primary is not torn to begin with |
| `StateFiles.LosingRun` | bridge/max_client/state_files.py:74-84 | the other direction by witness: a recovery cut after the torn text was copied over the good copy loses it |
| `StateFiles.OneIdentity` | bridge/max_client/identity.py:124-130 | from any disk, an install whose replacements of the primary succeed reports one identity for ever, whatever happens to the copy |
| `StateFiles.ReturnedIsOnDisk` | bridge/max_client/identity.py:106-177 | the rule that nothing is handed back that is not on disk holds for a launch if and only if its replacement of the primary was not refused, or a good copy was left alone: beside a missing or unreadable primary, or beside a torn one whose text could not be copied over it either |
| `StateFiles.GarbledForEver` | bridge/max_client/state_files.py:154-181 | a primary that is not UTF-8 is never recovered from, even beside a good copy: no launch ever returns an identity |
| `StateFiles.TearSurvivedExactlyWhen` | bridge/max_client/state_files.py:82-84 | after a tear of a good primary the next start that returns an identity returns the same one if and only if the copy holds it, where the legacy file names another |
| `StateFiles.RefusedFirstWrite` | bridge/max_client/identity.py:210-215 | a run in which the rule fails: after a refused first write two starts report two phones, whatever the legacy ones are |
| `StateFiles.SecondTearIsFatal` | bridge/max_client/state_files.py:82-84 | one tear is survived by the next uninterrupted start; a second one is not, because the copy stays torn |
| `StateFiles.CounterOnlyRises` | bridge/max_client/client.py:112-130 | launch numbers never go back and never exceed the launches begun; strictly rising without tears, one repeat per tear at most |
| `StateFiles.NumberIs` | bridge/max_client/client.py:112-130 | the number of a launch is one more than the stored one, from the primary before the copy, or 1; and the disk an undisturbed launch leaves |
| `StateFiles.NextClientSessionId` | bridge/max_client/client.py:112-130 | the number is the stored one plus one, written back |
| `InteractivePings.Configured` | bridge/max_client/interactive.py:59-64 | the floors of the constructor make every configuration usable |
| `InteractivePings.ConfiguredIs` | bridge/max_client/interactive.py:59-64 | what is configured is kept wherever it is not under its floor |
| `InteractivePings.FreshIs` | bridge/max_client/interactive.py:64-75 | before the first connect the loop is idle and takes the server to believe the owner online; every invariant holds of it |
| `InteractivePings.WantedIsShown` | bridge/max_client/interactive.py:127-137 | what is wanted, mode by mode: always in online, until settled in offline, and in mirror also within the idle time of the last touch |
| `InteractivePings.DeadlineIsTheNextEnd` | bridge/max_client/interactive.py:139-150 | the deadline is the next moment at which that can end, and a period ahead where there is none |
| `InteractivePings.DeadlineSkipsNoChange` | bridge/max_client/interactive.py:139-150 | the deadline is strictly ahead and what is wanted does not change before it |
| `InteractivePings.StepTracks` | bridge/max_client/interactive.py:152-168 | every step keeps: the declared flag was wanted when the last send began, a ping is due within the period |
| `InteractivePings.FlagOverRuns` | bridge/max_client/interactive.py:152-168 | over every run, a loop that sleeps or sends has the flag its mode asks for at the instant it last judged: in online true, in offline whether it had not settled, in mirror that or a touch within the idle time |
| `InteractivePings.PingsKeepTime` | bridge/max_client/interactive.py:152-168 | nothing is sent without a reason: the flag changed, or a whole period went by since the last answer |
| `InteractivePings.AnsweredSendSleeps` | bridge/max_client/interactive.py:158-168 | an answered send is declared, and the loop sleeps until a period later or until the shown state ends, if sooner |
| `InteractivePings.InstallIs` | bridge/max_client/interactive.py:97-104 | a connect settles from now on, counts as declared, keeps the last touch, and pings at once |
| `InteractivePings.TouchIs` | bridge/max_client/interactive.py:115-123 | a touch counts from now on in mirror mode only, and wakes the loop exactly when the owner was declared away |
| `InteractivePings.NeverStaleForLong` | bridge/max_client/interactive.py:152-168 | with every send answered within some longest time, the declared flag of the sleeping loop is what was wanted at an instant no more than one period and that longest time ago |
| `InteractivePings.StepAgrees` | bridge/max_client/interactive.py:156-168 | exact agreement survives a step if and only if an answered send was prompt: one that raises the flag is answered before every reason for it is over, one that drops it with no touch in between that still counts |
| `InteractivePings.PromptExactlyWhen` | bridge/max_client/interactive.py:127-161 | that is exactly when what the send declares is what is wanted at the answer |
| `InteractivePings.QuietSendIsPrompt` | bridge/max_client/interactive.py:139-161 | a send during which the owner does nothing and no deadline passes is prompt |
| `InteractivePings.DeclaredIsWanted` | bridge/max_client/interactive.py:79-168 | under any run of touches, reconnects and prompt sends the sleeping loop has declared exactly what is wanted now |
| `InteractivePings.InstantSendIsPrompt` | bridge/max_client/interactive.py:158-161 | sends that take no time are prompt |
| `InteractivePings.WakeUpLostDuringSend` | bridge/max_client/interactive.py:162 | a touch during a send loses its wake-up: the loop sleeps declaring "away" until the next ping, at most one period later |
| `InteractivePings.Pings.constructor` | bridge/max_client/interactive.py:51-75 | a connection starts declared online with no touch |
| `InteractivePings.Pings.Install` | bridge/max_client/interactive.py:97-104 | a reconnect settles, declares online and keeps the last touch |
| `InteractivePings.Pings.Touch` | bridge/max_client/interactive.py:115-123 | a touch counts only in mirror mode and wakes only an undeclared loop |
| `InteractivePings.Pings.TopOfLoop` | bridge/max_client/interactive.py:156-168 | from the top of the loop to its next await |
| `InteractivePings.Pings.AfterSend` | bridge/max_client/interactive.py:159-168 | what follows an answered send |
| `InteractivePings.Pings.Wait` | bridge/max_client/interactive.py:162-168 | the wake-up is cleared and the wait is until the sooner of ping and deadline |
| `InteractivePings.Pings.Awake` | bridge/max_client/interactive.py:164-168 | a wake-up or a timeout returns to the top |
| `CreatingSend.StepBalances` | bridge/max_client/native_state.py:190-275 | attempts = successes + fallbacks + unconfirmed + escaped + in flight; open exactly when a refusal was counted; open for good; the other kind untouched |
| `CreatingSend.BreakerOverRuns` | bridge/max_client/native_state.py:215-275 | the same over every interleaving of sends, and no attempt of a kind begins once its breaker is open |
| `CreatingSend.BooksFromTheStart` | bridge/max_client/native_state.py:190-275 | from the start of the process, however sends overlap: each attempt is one success, fallback, unconfirmed send, escaped error or still in flight, and a breaker is open if and only if a native send of its kind was refused for its shape |
| `CreatingSend.OneCallIsHonest` | bridge/max_client/client.py:900-977 | what one creating call returns says truly whether its frame may have made a message |
| `CreatingSend.AtMostOneCopy` | bridge/max_client/client.py:1026-1108 | at most one frame of any send may have made a message; a plain attachment follows a native one only if that was never written or refused for its shape |
| `CreatingSend.SendIs` | bridge/max_client/client.py:1026-1108 | what a send does in every case: one plain call where nothing may go natively, one sticker call for a lone ready sticker, one plain call after a native attempt that gives way and none after any other, and nothing where the rules refuse; each call one frame unless the session is down, and `Sent` with the id exactly when the answer holds a positive one |
| `CreatingSend.AttemptIsCounted` | bridge/max_client/native_state.py:215-275 | a native attempt counts once as an attempt and once as its end, and trips the breaker exactly on a refused shape, with the first 200 characters of the reason |
| `CreatingSend.OtherSendsAreNotCounted` | bridge/max_client/client.py:1026-1062 | a send that is no native attempt leaves counters and breakers alone |
| `CreatingSend.SendIsTwoEvents` | bridge/max_client/client.py:1062-1092 | one send is one attempt begun and concluded, so the balance covers it |
| `CreatingSend.MaxClient.RunCreatingCall` | bridge/max_client/client.py:900-977 | the frames written and the outcome, for every answer of the server |
| `CreatingSend.MaxClient.InvokeNativeSend` | bridge/max_client/client.py:1278-1312 | a schema refusal trips the breaker, silence counts as unconfirmed, anything else changes nothing |
| `CreatingSend.MaxClient.SendNativeMedia` | bridge/max_client/client.py:1197-1276 | each preparation failure stops before the creating frame; a wrong uploader counts as drift |
| `CreatingSend.MaxClient.SendMedia` | bridge/max_client/client.py:1026-1108 | the whole send: frames, result and counters |
| `HistoryPaging.UnseenIsTheFront` | bridge/max_client/client.py:317-320 | of a page that overlaps what was seen, the new part is its front |
| `HistoryPaging.NothingNewMeansStuck` | bridge/max_client/client.py:317-319 | a page with nothing new means a whole page of one time stamp, or the start |
| `HistoryPaging.NeverJumpsOver` | bridge/max_client/client.py:306-329 | no round reaches below a page of one time stamp |
| `HistoryPaging.OneRound` | bridge/max_client/client.py:306-329 | one round takes a contiguous stretch of at most one page right before what was seen |
| `HistoryPaging.RoundKeepsWalking` | bridge/max_client/client.py:306-329 | the loop invariant: what is collected is a tail of the chat, each message once |
| `HistoryPaging.PageGoesInFront` | bridge/max_client/client.py:1559 | sorting the collected pages by id restores the order of the chat |
| `HistoryPaging.SortIsAPermutation` | bridge/max_client/client.py:1559 | sorting loses and invents nothing |
| `HistoryPaging.SmallRequestsAreClear` | bridge/max_client/client.py:300-301 | up to 200 messages no condition is needed |
| `HistoryPaging.PageHistory` | bridge/max_client/client.py:298-329 | the walk ends, collects fewer than wanted + page distinct messages, a tail of the chat; it gets there if and only if no page of one time stamp is in the way |
| `HistoryPaging.FetchHistory` | bridge/max_client/client.py:1525-1560 | exactly the newest `limit`, oldest first, if and only if no such page is among them, and what there is down to it otherwise; always up to 200; all or at least 20 000 without a limit |
| `Provisioning.BrokenStaysBroken` | bridge/provisioning/batch.py:203-563 | a broken rule stays broken, so a walk that breaks none may be cut anywhere |
| `Provisioning.PrefixesAreSafe` | bridge/provisioning/batch.py:203-563 | an error or a crash after any act breaks no rule that the whole walk keeps |
| `Provisioning.TokenIsSafe` | bridge/provisioning/batch.py:435-454 | from a saved token on: noted, the old worker stopped, only then the dialog wiped |
| `Provisioning.EnsureIsSafe` | bridge/provisioning/batch.py:380-454 | getting a token breaks no rule and leaves no stop outstanding |
| `Provisioning.ServeIsSafe` | bridge/provisioning/batch.py:484-563 | starting, greeting, checking and activating break no rule, and start the worker without a stop exactly when one was outstanding |
| `Provisioning.WalkIsSafe` | bridge/provisioning/batch.py:256-307 | a whole walk keeps every rule; begun with a stop outstanding, it starts the worker without one if and only if it resumes with the saved token |
| `Provisioning.ContactIsSafe` | bridge/provisioning/batch.py:203-254 | so does a turn of the run, skipped, resumed or reopened |
| `Provisioning.RunsAreSafe` | bridge/provisioning/batch.py:203-563 | over all runs, restarts, port failures and writes to the journal between them (selections, retries, attempts given up, names found taken, bridges disconnected): `create_bot` never follows a conflict, a foreign or an unmanageable answer, no worker starts with an unsaved token, HEALTHY is only noted when earned; and a saved token has its `stop_bridge` before the next `start_worker` as long as no turn ends, by an error or a crash, between the two |
| `Provisioning.StartsUnstoppedExactlyWhen` | bridge/provisioning/batch.py:203-563 | over the same runs, a worker is started without a stop since its token was saved if and only if some turn that resumes comes while a stop is outstanding from a turn cut before |
| `Provisioning.StopCanBeCut` | bridge/provisioning/batch.py:441-447 | every walk that gets a token can leave such a stop outstanding, by an error of `stop_bridge` or by a crash: it comes after the note, outside any handler |
| `Provisioning.StartedWithoutAStop` | bridge/provisioning/batch.py:292-307 | and then the next turn that finds the bot ours does start the worker without a stop |
| `Provisioning.ReselectedWithoutAStop` | bridge/provisioning/journal.py:359-370 | an attempt that failed for good is skipped until its contact is selected again; then it keeps its token, and with a stop still outstanding its worker is started without one |
| `Provisioning.OwedMeansOwes` | bridge/provisioning/batch.py:443-447 | a stop is outstanding exactly when no stop follows the last saved token; neither an error nor a crash settles it |
| `Provisioning.NotesAreCovered` | bridge/provisioning/journal.py:281-303 | whatever token the journal names was saved by an act |
| `Provisioning.HealthyIsNoted` | bridge/provisioning/batch.py:561-563 | an entry becomes HEALTHY only through the note at the end of a walk |
| `Provisioning.HealthyIsEarned` | bridge/provisioning/batch.py:484-563 | and then, over all those runs, its walk started the worker with a saved token, tried `/start`, got a healthy answer and an activated row, in that order, with nothing begun again in between |
| `Provisioning.TurnEndsAs` | bridge/provisioning/batch.py:203-563 | how a turn ends, told from the answers alone: the entry that is not walked stays; every walked one ends HEALTHY where every port answered well, failed for good on a conflict, a name that is somebody else's or out of reach or a final refusal, and retryable otherwise, with the bot, token, bridge name, closed chat and failure it came to |
| `Provisioning.WalkDoes` | bridge/provisioning/batch.py:256-563 | what a walk asks and does, told from the answers alone: each question and effect exactly once, and none but those |
| `Provisioning.EffectsAreNoted` | bridge/provisioning/batch.py:256-563 | what an effect proved is noted before anything else happens, so a journal cut anywhere lacks at most the last effect |
| `Provisioning.OutsideLeaves` | bridge/provisioning/journal.py:281-374 | what a selection, a retry, an attempt given up, a name found taken and a disconnection leave of the journal |
| `Provisioning.SelectionLeaves` | bridge/provisioning/journal.py:253-279 | a selection is each contact's selection in turn |
| `Provisioning.OnlyItsOwnEntry` | bridge/provisioning/journal.py:281-303 | a turn, or a write from outside, wherever cut, leaves every other entry of the journal as it was |
| `Provisioning.ProvisioningBatch.constructor` | bridge/provisioning/batch.py:160-191 | a batch over the journal it is given |
| `Provisioning.ProvisioningBatch.Note` | bridge/provisioning/journal.py:281-303 | one entry is replaced by the merge of the named fields |
| `Provisioning.ProvisioningBatch.Verify` | bridge/provisioning/batch.py:545-563 | health first, then activation, then HEALTHY; retryable otherwise |
| `Provisioning.ProvisioningBatch.OpenChat` | bridge/provisioning/batch.py:506-543 | the greeting, with the owner asked to open the chat where a session cannot |
| `Provisioning.ProvisioningBatch.Launch` | bridge/provisioning/batch.py:484-504 | the worker starts with the saved token, or the entry fails retryably |
| `Provisioning.ProvisioningBatch.Serve` | bridge/provisioning/batch.py:302-307 | the three in order, each only after the one before |
| `Provisioning.ProvisioningBatch.Keep` | bridge/provisioning/batch.py:435-454 | token noted, old worker stopped, reused dialog wiped |
| `Provisioning.ProvisioningBatch.Make` | bridge/provisioning/batch.py:408-454 | from `create_bot` to a usable token |
| `Provisioning.ProvisioningBatch.EnsureBot` | bridge/provisioning/batch.py:380-454 | confirmation first where there is no bot of ours |
| `Provisioning.ProvisioningBatch.Remember` | bridge/provisioning/batch.py:361-378 | the id of a bot that is ours is written down when it is not known |
| `Provisioning.ProvisioningBatch.Bot` | bridge/provisioning/batch.py:292-307 | resume with the saved token, or make a bot |
| `Provisioning.ProvisioningBatch.Provision` | bridge/provisioning/batch.py:256-307 | the whole walk of one contact |
| `Provisioning.ProvisioningBatch.TakeTurn` | bridge/provisioning/batch.py:203-254 | skip, resume or reopen |
| `Provisioning.ProvisioningBatch.Run` | bridge/provisioning/batch.py:194-217 | every selected contact in turn, with the entries the journal held when the run began; the journal is what the trace leaves |
| `Provisioning.ProvisioningBatch.Begin` | bridge/provisioning/journal.py:253-279 | a selection merged in: an unknown contact added, a failed or abandoned one begun again with its bot and token, any other left |
| `Provisioning.ProvisioningBatch.VisitOne` | bridge/provisioning/batch.py:203-217 | one contact of the run, nothing for one the journal did not know |
| `Markdown.EncodingRoundTrips` | bridge/formatting/elements.py:174-177 | a text survives UTF-16 and back (section 2.1 of RFC 2781) |
| `Markdown.UnitsAre` | bridge/formatting/forwards.py:109-117 | one unit for a character of the first plane, two with ten bits each for any other (section 2.1 of RFC 2781) |
| `Markdown.EncodedAppend` | bridge/formatting/forwards.py:109-117 | the units of a prefixed text are the units of the prefix and then of the text |
| `Markdown.CutDecodes` | bridge/formatting/elements.py:176-177 | a cut that starts between characters can be decoded if and only if it ends between characters |
| `Markdown.KnownIs` | bridge/formatting/elements.py:165-172 | exactly the ranges markdown has no form for are left out, and the order stays |
| `Markdown.SortedIsOrdered` | bridge/formatting/elements.py:180 | the stable order by offset, the longer range first: the same ranges as often, and those of one key in the order they came in |
| `Markdown.SortedByOffset` | bridge/formatting/elements.py:180 | sooner first, and the longer of two that start together |
| `Markdown.DroppedStartsInside` | bridge/formatting/elements.py:184-187 | the ranges kept lie apart in ascending order; every dropped one starts inside a kept one and does not come before it |
| `Markdown.AllAreRenderedExactlyWhen` | bridge/formatting/elements.py:179-187 | every range markdown knows is rendered if and only if no two of them overlap |
| `Markdown.NestedPair` | bridge/formatting/elements.py:179-187 | italics inside bold are not rendered |
| `Markdown.MarkersComeOff` | bridge/formatting/elements.py:158-199 | taking the inserted markers out of the output gives back the text, for any ranges |
| `Markdown.RenderedExactlyWhen` | bridge/formatting/elements.py:176-198 | rendering fails if and only if a kept range begins or ends inside a surrogate pair |
| `Markdown.WhatIsMarked` | bridge/formatting/elements.py:158-199 | the output is bare pieces between marked ones: each kept range, with the marks of its kind, around exactly the words it covers |
| `Markdown.OneRangeIsMarked` | bridge/formatting/elements.py:148-199 | the words of a range stand between the marks of its kind: `**`, `_`, `__`, `~~`, one or three backticks, or a link with its address; between what came before and after |
| `Markdown.NestingIsLost` | bridge/formatting/elements.py:179-187 | of two ranges of which one starts inside the other at most one is rendered |
| `Markdown.EntitiesToMarkdown` | bridge/formatting/elements.py:158-199 | the loop with its cursor computes that output, or raises |
| `Markdown.PrefixShiftsTheOutput` | bridge/formatting/elements.py:133-141 | shifting by `utf16_length(prefix)` renders prefix + text as prefix + the old output |
| `Markdown.EntitiesToElements` | bridge/formatting/elements.py:71-97 | the loop keeps the kinds MAX has, in order |
| `Markdown.ElementsToEntities` | bridge/formatting/elements.py:100-130 | the loop drops what Telegram would reject |
| `Markdown.ElementIs` | bridge/formatting/elements.py:71-97 | a range goes as the same kind of element over the same words, a link with its target; one MAX has no kind for does not go |
| `Markdown.EntityIs` | bridge/formatting/elements.py:100-130 | an element comes as the same kind of range over the same words, a heading as bold; not without a place, a length, or a link its target |
| `Markdown.ElementsAre` | bridge/formatting/elements.py:71-97 | one after the other, in order |
| `Markdown.EntitiesAre` | bridge/formatting/elements.py:100-130 | one after the other, in order |
| `Markdown.FormattingRoundTrips` | bridge/formatting/elements.py:24-46 | formatting survives the way to MAX and back if and only if every range is one both protocols can say, and no block of code names a language; nothing is ever added |
| `Markdown.OnlyTheLanguageIsLost` | bridge/formatting/elements.py:71-130 | a range comes back with at most its language lost if and only if MAX has its kind, it has words, and a target exactly where it is a link |
| `Presentation.StampIsRecognised` | bridge/formatting/stamps.py:94-131 | both shapes `format_stamp` draws are what the pattern takes |
| `Presentation.ClockIsRecognised` | bridge/formatting/stamps.py:27-56 | the three shapes of `format_clock` |
| `Presentation.MarkIsRecognised` | bridge/formatting/stamps.py:65-91 | every edit mark is what the pattern takes |
| `Presentation.StampShows` | bridge/formatting/stamps.py:94-131 | when a stamp is drawn, which of its two shapes it has, and that it shows the day, the time and the year in their places |
| `Presentation.ClockShows` | bridge/formatting/stamps.py:27-56 | the clock shows the time today, the day besides in this year, and the year besides in any other |
| `Presentation.MarkShows` | bridge/formatting/stamps.py:65-91 | the edit mark holds that clock, unless marks are off or there is no time |
| `Presentation.HeaderNames` | bridge/formatting/forwards.py:36-44 | the forward line names the author without the white space around the name |
| `Presentation.StampLengthIs` | bridge/formatting/presentation.py:32 | the pattern takes a stamp and nothing else |
| `Presentation.ForwardLengthIs` | bridge/formatting/presentation.py:34-37 | the pattern takes the whole first line where it begins with the arrow and a space and ends |
| `Presentation.WithoutMarkIs` | bridge/formatting/presentation.py:41-43 | a mark also comes off before a newline that ends the text, and without one nothing changes |
| `Presentation.StampIsTaken` | bridge/formatting/presentation.py:32 | a stamp comes off whole and alone |
| `Presentation.OneMarkAtMost` | bridge/formatting/presentation.py:41-43 | a text ends in a mark of at most one length |
| `Presentation.MarkComesOff` | bridge/formatting/presentation.py:41-43 | a mark at the end comes off whole and alone |
| `Presentation.ForwardLineComesOff` | bridge/formatting/forwards.py:36-44 | a forward line comes off whole if and only if the trimmed name is on one line |
| `Presentation.TooMuch` | bridge/formatting/presentation.py:46-56 | whatever else is taken off the front, what is left is not the body |
| `Presentation.DecorationsComeOff` | bridge/formatting/presentation.py:46-56 | stripping gives back the body if and only if no absent decoration is imitated in its place |
| `Presentation.RenderingComesOff` | bridge/formatting/presentation.py:46-56 | the same for everything the renderers draw |
| `Documents.ParsedIsWritten` | bridge/config/writer.py:76-95 | reading a file as blocks loses and moves no line |
| `Documents.WrittenIsParsed` | bridge/config/writer.py:76-95 | a document survives being written and read again |
| `Documents.BodyInPlace` | bridge/config/writer.py:97-108 | editing one block of the document is editing its lines in place |
| `Documents.BlockCut` | bridge/config/writer.py:170-176 | dropping a block of the document is cutting its lines |
| `ConfigEditor.SetReadsBack` | bridge/config/writer.py:70-108 | no other section or key of the file reads differently; the value itself is what the loader reads unless the section or the key is repeated below the edited line, and then the file reads as before |
| `ConfigEditor.RepeatedKey` | bridge/config/writer.py:95-99 | a key given twice: the first line is edited, the loader still reads the second |
| `ConfigEditor.RepeatedSection` | bridge/config/writer.py:81-85 | a section given twice: the first is edited, the loader still reads the second |
| `ConfigEditor.CommentsStay` | bridge/config/writer.py:95-108 | comments, blank lines and nested lines stay as they are if and only if the line that is replaced, if one is, is an entry of the section itself |
| `ConfigEditor.NestedLineIsReplaced` | bridge/config/writer.py:95-99 | a nested line that names the key comes first: the edit takes it for the key |
| `ConfigEditor.SetIsParsed` | bridge/config/writer.py:70-108 | the file that is written parses to the edited document |
| `ConfigEditor.LastValueStays` | bridge/config/writer.py:97-108 | of two writes of a key the file of the last is left, whatever was written before it; writing a value again changes nothing |
| `ConfigEditor.SectionsCommute` | bridge/config/writer.py:70-108 | writes to different sections of a file can change places |
| `ConfigEditor.OneLineChanges` | bridge/config/writer.py:97-108 | one line, the one that named the key, is replaced or one line is inserted; every other line and comment stays |
| `ConfigEditor.SetByIndex` | bridge/config/writer.py:97-108 | where that line is: the first that names the key, else after the last line of the section that is not blank |
| `ConfigEditor.ConfigFile.Locate` | bridge/config/writer.py:78-95 | the first section of the name and the next top-level line |
| `ConfigEditor.ConfigFile.SetConfigValue` | bridge/config/writer.py:70-108 | the index loops do the edit of the document; false and nothing written where there is no section |
| `ConfigEditor.ConfigFile.FindKey` | bridge/config/writer.py:97-101 | the first line of the section that names the key |
| `ConfigEditor.ConfigFile.BeforeBlanks` | bridge/config/writer.py:103-106 | the place before the blank lines that end the section |
| `ConfigEditor.OneBridgeGoes` | bridge/config/writer.py:158-176 | exactly the first entry of the name is gone, the others keep their order, and every other block stays; the only entry takes its section with it, and the other blocks keep their order |
| `ConfigEditor.OthersReadTheSame` | bridge/config/writer.py:115-179 | every other section of the document reads as before |
| `ConfigEditor.FileReadsAsRemoved` | bridge/config/writer.py:168-179 | the blank lines that go with the entry matter to no reader |
| `ConfigEditor.OthersReadTheSameInFile` | bridge/config/writer.py:115-179 | whoever reads the written file finds every other section as it was |
| `ConfigEditor.BridgeIsForgotten` | bridge/config/writer.py:115-179 | after a removal the loader still finds the bridge if and only if its section listed the name twice or, where a second section hides that one, the second lists it |
| `ConfigEditor.BridgeIsForgottenInFile` | bridge/config/writer.py:115-179 | the same of the file that is written |
| `ConfigEditor.EntryByIndex` | bridge/config/writer.py:149-164 | the lines from one entry start to the next are that entry |
| `ConfigEditor.NameIsRead` | bridge/config/writer.py:182-188 | the name of an entry is read from its first line that gives one, with the dash or without, bare or in quotes |
| `ConfigEditor.EmptyNameIsRead` | bridge/config/writer.py:182-188 | a line `name:` with nothing behind it names the entry with nothing |
| `ConfigEditor.TrimmedEndIs` | bridge/config/writer.py:178 | the empty lines at the end of the file go and nothing else |
| `ConfigEditor.EntryStarts` | bridge/config/writer.py:149-154 | where each entry begins |
| `ConfigEditor.Position` | bridge/config/writer.py:158-166 | the first entry of the name |
| `ConfigEditor.ConfigFile.RemoveConfigBridge` | bridge/config/writer.py:115-179 | the index loops do the removal; false and nothing written where there is no such bridge |
| `ConfigEditor.SecretReadsBack` | bridge/config/writer.py:191-208 | every other name reads as before; the secret itself is what `load_dotenv` reads unless its name is assigned again below the edited line, and then it, too, reads as before |
| `ConfigEditor.RepeatedSecret` | bridge/config/writer.py:197-205 | a name assigned twice: the first line is edited, and the old secret of the second is what is read |
| `ConfigEditor.AssignedIs` | bridge/config/writer.py:197-203 | the name a line assigns is what stands before the first sign, trimmed |
| `ConfigEditor.EnvSetIs` | bridge/config/writer.py:197-207 | the first line of the name gives way to the new one; without such a line it comes last |
| `ConfigEditor.SecretAfterRestart` | bridge/config/loader.py:252-260 | the running program has the new secret at once; after a start that does not inherit the name it has it if and only if the name is not assigned again further down, or is so with the same value |
| `ConfigEditor.UnsetForgets` | bridge/config/writer.py:211-226 | an unset name reads as nothing and every other name as before |
| `ConfigEditor.UnsetLeaves` | bridge/config/writer.py:211-230 | the name goes from the process and its lines from the file; a file left without text is removed |
| `ConfigEditor.UnsetUndoesSet` | bridge/config/writer.py:211-230 | unsetting undoes setting an unknown name if and only if the file was missing or not blank |
| `ConfigEditor.EnvFile.SetEnvValue` | bridge/config/writer.py:191-208 | the loop replaces the first line of the name or appends one, and exports the value |
| `ConfigEditor.EnvFile.UnsetEnvValue` | bridge/config/writer.py:211-230 | every line of the name goes; a file left blank is removed |
| `Delivery.CaptionIsWhole` | bridge/media/delivery.py:302-315 | the trimmed caption rides along whole up to 1024 characters and follows whole beyond |
| `Delivery.PlacesAre` | bridge/media/delivery.py:318-330 | the photos and videos go together where there are two or more, and everything else as itself; both keep the order of the attachments |
| `Delivery.FittingAre` | bridge/media/delivery.py:625-641 | of the album, what is not over the limit, in the same order |
| `Delivery.AlbumIs` | bridge/media/delivery.py:599-659 | an album is fetched file by file with a notice for each over the limit; then the others go together in their order, or the only one as itself, under the caption |
| `Delivery.SingleIs` | bridge/media/delivery.py:674-836 | how an attachment that goes as itself is delivered: as what it is, with the caption if it takes one, unless its file cannot be had |
| `Delivery.SinglesInTurn` | bridge/media/delivery.py:576-589 | they go one after the other in the order of the attachments, and only the first can take the caption |
| `Delivery.DeliveryIs` | bridge/media/delivery.py:555-595 | a complete delivery is the album, then what goes as itself, then the caption that would not ride |
| `Delivery.EachIsHandledOnce` | bridge/media/delivery.py:527-597 | every attachment is handled exactly once, as itself, in the album, or as a notice, if and only if no fetch escapes: none fails, and no member of an album is without a source |
| `Delivery.HandledOnceAtMost` | bridge/media/delivery.py:527-672 | no attachment is ever handled twice, and the one whose fetch escapes not at all |
| `Delivery.CaptionArrives` | bridge/media/delivery.py:555-595 | a caption that fits goes out exactly once if there is something it can ride on that is reached, and not at all otherwise; one that is too long goes out exactly once, last, if and only if the delivery completes |
| `Delivery.CaptionOfOversizedPhotos` | bridge/media/delivery.py:561-572 | an album of which nothing fits takes the caption with it |
| `Delivery.AnnouncedFirst` | bridge/media/delivery.py:416-443 | `on_sending` fires once, right before the first Telegram call, and only if there is one |
| `Delivery.FetchedBeforeSent` | bridge/media/delivery.py:515-518 | the documented order, everything fetched before anything is sent, holds of what the delivery reaches if and only if an album has no oversized file before its last and no other file beside it and, without an album, no file comes after the first attachment |
| `Delivery.AnswerPasses` | bridge/media/delivery.py:243-274 | an album answer passes if and only if it has as many ids as parts, strictly ascending from a positive one |
| `Delivery.AlbumParts` | bridge/media/delivery.py:646-658 | the parts are numbered 0..n-1, in the kinds and order of the items, each under the id of its place in the answer, strictly ascending and positive |
| `Delivery.AnswerIs` | bridge/media/delivery.py:599-659 | an album has no answer exactly when a file of it fails or names no source, or the ids of a real album are refused |
| `Delivery.HeadIs` | bridge/media/delivery.py:555-597 | the message a receipt names first: of the album, else of the first attachment that went as itself, else the caption |
| `Delivery.MaxMediaDelivery.constructor` | bridge/media/delivery.py:425-430 | nothing sent, nothing announced |
| `Delivery.MaxMediaDelivery.Send` | bridge/media/delivery.py:432-443 | a call on the sender, announced when it is the first |
| `Delivery.MaxMediaDelivery.Gather` | bridge/media/delivery.py:625-641 | each file in turn; a notice for each over the limit; a file that fails or has no source ends the delivery |
| `Delivery.MaxMediaDelivery.SendAlbum` | bridge/media/delivery.py:599-659 | gathered, then nothing, one message or one album; nothing is sent where a fetch escapes |
| `Delivery.MaxMediaDelivery.SendOne` | bridge/media/delivery.py:674-836 | one attachment by its kind; a file without a source becomes a notice, a failed one ends the delivery |
| `Delivery.MaxMediaDelivery.SendSingles` | bridge/media/delivery.py:576-589 | only the first takes the caption; the first id is kept; a fetch that escapes ends them |
| `Delivery.MaxMediaDelivery.DeliverReceipt` | bridge/media/delivery.py:502-597 | the whole delivery, its head and the parts of its album; there is a receipt if and only if no fetch escapes and the album answer passes, and otherwise what was done is the start of the acts |
| `Onboarding.NothingIsLost` | bridge/onboarding/state.py:210-240 | for any interleaving over any number of stores, each field on disk holds what anybody last named for it |
| `Onboarding.StepIsTheLastNamed` | bridge/onboarding/state.py:236-240 | the step on disk is the one last named, or the rewound one after an update that named none |
| `Onboarding.ReaderStaysBehind` | bridge/onboarding/state.py:143-156 | a store that only reads keeps the record it first saw |
| `Onboarding.OnlyItsOwnQuestions` | bridge/onboarding/state.py:62-68 | a store holds an ephemeral step only if it named one itself |
| `Onboarding.FirstLoadIs` | bridge/onboarding/state.py:143-156 | what a store that has seen nothing reads, with the steps of a login that cannot go on rewound to the phone |
| `Onboarding.UpdateIs` | bridge/onboarding/state.py:210-240 | what an update writes to the disk and to its own store: each named field, and every other as the disk had it |
| `Onboarding.StateStore.constructor` | bridge/onboarding/state.py:131-133 | a store has seen nothing |
| `Onboarding.StateStore.Load` | bridge/onboarding/state.py:143-156 | from the cache, else from disk with an ephemeral step rewound |
| `Onboarding.StateStore.Save` | bridge/onboarding/state.py:202-208 | the stamped record on disk and in the cache |
| `Onboarding.StateStore.Update` | bridge/onboarding/state.py:210-240 | the named fields over what is on disk, never over the cache |
| `Capacity.OneMore` | bridge/provisioning/capacity.py:171-172 | one contact more costs what its plan costs |
| `Capacity.AllowedMeans` | bridge/provisioning/capacity.py:60-206 | a selection is allowed exactly when each contact in it has a name and a bot within reach, and the owned bots and the new ones together stay within the limit; where that is unknown it may need no new one |
| `Capacity.TapIs` | bridge/provisioning/capacity.py:189-206 | a tap takes a chosen contact out, puts another in where that is allowed, and otherwise changes nothing |
| `Capacity.TapKeepsAllowed` | bridge/provisioning/capacity.py:189-206 | no tap leaves a selection that is not allowed |
| `Capacity.TapsKeepAllowed` | bridge/provisioning/selection.py:145-169 | nor does any number of taps |
| `Capacity.AllowedIsReached` | bridge/provisioning/capacity.py:189-206 | every allowed selection can be tapped together |
| `Capacity.ReachableIsAllowed` | bridge/provisioning/capacity.py:164-206 | the selections taps can lead to are exactly those of selectable contacts whose new bots fit the free slots, or cost nothing where the limit is unknown |

## Left out

- Waveform.NormalisationIsTame: exact rationals in place of floating point; rounding of the original is not modelled.
- Waveform.BarsAreTame: the position of a bar is computed in exact rationals too.
- Waveform.Probe: the decoder, the duration it reports and the files it opens are not part of this model.
- Albums.QuietRunsLoseNothing: `settle_ms` only delays `restore` and is left out; two `add`s to one group are taken not to overlap across the store's answer, and the store returns parts in insertion order. What a restore beside a flight of the same group sends twice is not counted.
- StateFiles.StateFile.Replace: a replacement is one step; temporary files, modes and directory syncs are left out.
- InteractivePings.NeverStaleForLong: a ping that fails closes the transport and ends the loop, which is left out; so are the handles of the loops and `close`.
- CreatingSend.MaxClient.SendMedia: the creation and caching of stickers, the upload steps inside a plain send, and the wording of log lines are left out; `classify_native_error` and `check_upload_url` answer through parameters.
- HistoryPaging.FetchHistory: the branch for an older client without paging arguments, messages without an id or a time, and the normalisation of messages are left out.
- Provisioning.RunsAreSafe: the best-effort calls `prepare`, `forget_bot` and the progress report change nothing the rules speak of and are left out, as are titles, times, generations, the coordinator's claims, and states only older journals hold. An error of the preflight other than a conflict counts as no conflict, as in the code.
- Provisioning.ProvisioningBatch.Run: stated for a selection that names no contact twice, which is what the picker hands over, and with nobody else writing the journal meanwhile.
- Markdown.EntitiesToMarkdown: offsets and lengths are natural numbers, and a text is made of Unicode scalar values, so a lone surrogate in the text itself does not occur.
- Markdown.FormattingRoundTrips: an entity without an offset, which the code reads as 0, is left out.
- Presentation.RenderingComesOff: dates and times come as numbers in a year of four digits; time zones and the calendar are left out.
- ConfigEditor.ConfigFile.SetConfigValue: a file is its lines; which characters end a line, and YAML beyond sections, keys and list entries by the line, are left out. The atomic replacement of the file is part of `StateFiles`.
- ConfigEditor.SetReadsBack: the loader is modelled on sections whose entries stand two spaces deep, as the program writes them, and on plain values on one line: quotes, comments behind a value, other indentations and the errors of a YAML parser are left out. Stated for names without a colon, not empty, and with nothing to trim or take for a comment at the front, as callers use them.
- ConfigEditor.SecretReadsBack: of the `.env` reader, quotes, comments behind a value, interpolation and the prefix `export` are left out, as is the choice between several `.env` files.
- ConfigEditor.BridgeIsForgotten: a name is read as the editor reads it, from the first line `name:` of an entry.
- Delivery.MaxMediaDelivery.DeliverReceipt: modelled with `on_sending` given; formatting entities, reply targets, covers, sticker origins and texts are left out. A send that fails leaves the start of the acts and is not modelled as a result of its own.
- Delivery.AlbumParts: the fallback of the adapter that sends the parts of a refused group one by one is not part of this model.
- Onboarding.NothingIsLost: one process; a second process can write between the read and the write of an update.
- Capacity.ReachableIsAllowed: one snapshot with one plan per contact; a fresh snapshot may leave fewer slots.
- All transport, screens, keyboards, callback parsing, image and sticker decoding, payload normalisation, configuration models, redaction, the retry worker, the repositories and the login dialogue of `bridge/onboarding/fsm.py` are left out: they are foreign calls, user interface or single-branch facts.
