# Fibers, calendar queue and cell simulation

A verification model of a fiber library for Linux, in its kernel-module and its user-space form,
and of the program that exercises it: a discrete-event simulation of the channels of a telephone
cell, one cell per fiber, driven by a calendar queue.

| part | files |
|---|---|
| Calendar queue: bucket arithmetic and scan, exact cursors | `Calendar.dfy`, `Cursors.dfy` |
| Calendar queue: width from a sample | `Width.dfy` |
| Calendar queue: every operation on values, every run | `QueueModel.dfy`, `QueueRuns.dfy`, `QueueTies.dfy`, `TwoBuckets.dfy`, `QueueExamples.dfy` |
| Calendar queue: the class, the class run against the model, the clients' view | `CalendarQueue.dfy`, `QueueDriver.dfy`, `Agenda.dfy` |
| Calendar queue: a bucket's nodes in memory | `Buckets.dfy` |
| Random numbers | `Random.dfy`, `Noise.dfy` |
| Channels, events, event handler and dispatch loop | `Channels.dfy`, `Events.dfy`, `Histories.dfy`, `Simulation.dfy`, `SimulationExamples.dfy` |
| User-space fibers | `UltHandoff.dfy`, `UltRuns.dfy`, `Jmp.dfy` |
| Kernel fibers | `KernelFibers.dfy`, `KernelRuns.dfy`, `KernelDriver.dfy`, `FiberStorage.dfy`, `FiberTime.dfy`, `KernelTime.dfy` |
| Shared types | `Common.dfy` |

## Calendar queue

Nodes lie in sorted bucket lists; a cursor scans one year of buckets and a direct search follows
where the scan finds nothing. A full or an empty calendar is copied to the other end of one array,
with a width taken from a sample that is dequeued and put back. The class `CalendarQueue` has one
constant, `realign`:

- `realign == false` is the code as written. Its direct search sets `lastbucket` and `lastprio`
  but not `buckettop` (calqueue.c:212-224). `QueueExamples.DirectSearchLosesOrder` shows one
  consequence: after putting 3.1, 3.7 and 4.2 it gives back 3.1, 4.2, 3.7.
  `QueueExamples.DirectSearchLosesWidth` shows another: the fifth of the puts 3.1, 3.7, 3.71, 4.4, 5.0
  resizes to a negative bucket width.
- `realign == true` is the variant in which the direct search also recomputes `buckettop`, the way
  `localinit` does (calqueue.c:36-38).

Which dequeues are sure to serve a minimum is decided by the cursor alone. Let the last priority
served lie in virtual bucket v, let `buckettop` be the edge of virtual bucket a, and let there be n
buckets. Then every calendar that may be queued is served its minimum if and only if
a <= v - 2 or v <= a <= v + n - 2 (`Cursors.SoundIff`). Such a cursor is called sound. Each scan
moves a and v by the same amount; each direct search moves a by n, and v to the node it finds
(`Calendar.ShiftAfter`). What holds of which version:

| result | as written | realigning |
|---|---|---|
| conservation of entries, sortedness, placement, sizes, termination, cost | yes | yes |
| a dequeue is sure to serve a minimum | exactly from a sound cursor | always: the cursor is always sound |
| a run serves in ascending order | every run whose gets serve minima (`QueueRuns.RunServesInOrder`), so every run whose gets start from sound cursors (`QueueRuns.GuidedRun`) | every run (`QueueRuns.RealignedRun`) |
| distinct priorities give a usable width | where the dequeues of the sampling start from sound cursors (`QueueModel.DistinctWidthOk`); false in general | always |

Priorities are real numbers and not negative: the code converts `priority / cwidth` to an integer
and takes a remainder, which for a negative priority is not the number of a bucket.

A resize divides by the number of gaps it kept, which can be zero, and can compute a width of zero
or less. `Width.UsableIffAny` says exactly when it does, for a sample in any order: when the gaps of
twice the average or more add up to the distance from the first sample to the last, or more. From an
ascending sample that takes ties (`Width.UsableIff`, `QueueExamples.TiesLoseTheWidth`); the code as
written also samples out of order, and then needs none. At an unusable width the model stops with
`ok == false`, the queue still holding all its entries.

Entries of equal priority leave in the order in which they came (`QueueTies.StoredTies`,
`QueueTies.ServedTies`), except that a resize puts those it sampled behind those it did not
(`QueueTies.ResizedTies`).

## Cell simulation

`Simulation.MainLoop` runs the event handler on the queue class itself, not on an abstract queue.
The verdict `Aborted` stands for every abort and failure exit of `main_loop`, `ProcessEvent`,
`allocation` and `deallocation`; no run reaches it, with either version of the queue, as far as its
resizes find usable widths. `QueueStopped` is a resize without one.

For either version, the times of the events never go back before the first fetch from a cursor that
is not sound (`Histories.PastIsOrdered`), and where a cursor is not sound, a queue of one START_CALL
and END_CALLs can be served out of order (`Histories.NextFetchIsSureIff`). With the realigning
queue every cursor is sound, and a stop takes two events scheduled for the same time. With the queue
as written both can happen in runs of the simulation's own puts and gets:
`SimulationExamples.TimeGoesBack` handles 4.2 before 3.7, and `SimulationExamples.StopsWithoutTies`
meets a negative width although all times differ.

When events happen is part of the account too: in either version every call ends a draw of the mean
duration after it began, and every arrival follows the one before it by a draw of the mean time
between calls (`Histories.EventsInTime`).

## User-space fibers

`UltHandoff` is a state machine with one step for every access to shared memory in `ult_switch_to`,
`ult_creat` and the code they call; threads interleave freely. `Jmp` is the code below it,
instruction by instruction.

## Kernel fibers

`KernelFibers` splits the critical section of SWITCHTOFIBER into its steps, which interleave with
the other calls and with exits; Convert, Create, the FLS calls, the exit handler and a CPU dispatch
are single steps, and tasks come and go. `KernelDriver` is the same code as methods on the driver's
tables, where the fiber-local storage of every fiber is an object with a bitmap and an array. `FiberTime` is the accounting, and `KernelTime` shows that it follows the same machine.

The bitmap of allocated FLS slots is modelled with `MAX_FLS` bits, as its uses intend; the
declaration at fiber_ioctl.h:13 asks for `sizeof(MAX_FLS)` bits.

## Model

| member | source | states |
|---|---|---|
| Calendar.HitMeansSameYear | multi_thread/src/calqueue.c:175-209 | from a sound cursor the k-th bucket passes the scan's test exactly when its head lies in virtual bucket v + k, and never if the edge lies behind: the half width of slack admits no later year |
| Calendar.OneStepMinimum | multi_thread/src/calqueue.c:175-224 | from a sound cursor at or below every priority a dequeue takes a minimum of the whole calendar; the scan takes as many steps as virtual buckets separate last priority and minimum, and the direct search is used exactly when that is a year or more, or the edge lies behind |
| Cursors.SoundIff | multi_thread/src/calqueue.c:175-224 | exactly which cursors serve the minimum of whatever may be queued, for every number of buckets, width and last priority: a <= v - 2 or v <= a <= v + n - 2 |
| Calendar.DequeueShift | multi_thread/src/calqueue.c:175-209 | what a dequeue does to a sound cursor: its bucket is the node's, and its edge moves as far as the node is ahead, or one year, or with realignment to the node |
| Calendar.DequeueAlignment | multi_thread/src/calqueue.c:175-224 | from an aligned cursor the edge left behind is the node's own if and only if the search realigns or the minimum is at most one year ahead |
| Calendar.FirstHit | multi_thread/src/calqueue.c:175-210 | the first of the year's steps at which the test holds, or the number of buckets when it never does |
| Calendar.Lowest | multi_thread/src/calqueue.c:212-220 | a non-empty bucket whose head no other head is below, -1 only if all buckets are empty |
| Calendar.InsertAdds | multi_thread/src/calqueue.c:252-267 | the list walk adds exactly the new node |
| Calendar.InsertSorted | multi_thread/src/calqueue.c:252-267 | and keeps the list sorted |
| Calendar.InsertIsFifo | multi_thread/src/calqueue.c:256-266 | and puts the node behind all nodes of equal priority, whose order stays |
| Calendar.VirtualBounds | multi_thread/src/calqueue.c:36-38 | a priority lies between the edges of its virtual bucket |
| Width.SampleSize | multi_thread/src/calqueue.c:62-71 | how many nodes are sampled: all of up to 5; from 6 below 200 the n with 10(n - 5) <= size < 10(n - 4); then 25 |
| Width.Measure | multi_thread/src/calqueue.c:91-104 | sum and number of the gaps below the limit |
| Width.Compute | multi_thread/src/calqueue.c:88-114 | the new width, refused exactly where the division is by zero or the width not positive |
| Width.UsableIff | multi_thread/src/calqueue.c:97-114 | for an ascending sample: usable if and only if some gap is positive and below twice the average |
| Width.UsableIffAny | multi_thread/src/calqueue.c:88-114 | for a sample in any order: usable if and only if the gaps of twice the average or more add up to less than the distance from first to last |
| Width.DistinctIsUsable | multi_thread/src/calqueue.c:97-114 | a strictly ascending sample never makes the division by zero |
| Width.WidthBounds | multi_thread/src/calqueue.c:81-114 | its width lies between three times the smallest gap and strictly below six times the average gap |
| Width.WidthIsMean | multi_thread/src/calqueue.c:79-114 | for a sample in any order: the width is three times the mean of the gaps below twice the mean gap, and usable exactly if there are such gaps and their mean is positive |
| QueueModel.LocalInitGood | multi_thread/src/calqueue.c:19-43 | the initial calendar is well formed, empty, with an aligned cursor |
| QueueModel.DoubleIsSize | multi_thread/src/calqueue.c:273-275 | doubling below the maximum gives a power of two from 2 to 32768 |
| QueueModel.HalfIsSize | multi_thread/src/calqueue.c:193-194 | so does halving above 2 |
| QueueModel.StoredGood | multi_thread/src/calqueue.c:248-270 | the list part of a put keeps every bucket sorted and every node where its priority selects, counts right, and adds one entry |
| QueueModel.ServeGood | multi_thread/src/calqueue.c:181-190 | the list part of a dequeue keeps the same and takes away the entry it serves |
| QueueModel.ServesMinimum | multi_thread/src/calqueue.c:163-228 | a dequeue from a sound cursor serves a minimum of everything queued |
| QueueModel.ServesMinimumIff | multi_thread/src/calqueue.c:163-228 | a queue at a given cursor is sure to serve a minimum, whatever it holds, if and only if the cursor is sound |
| QueueModel.ServeStands | multi_thread/src/calqueue.c:181-224 | a dequeue that serves a minimum leaves the cursor standing in the served node's bucket, whether or not it was sound |
| QueueModel.ServeMoves | multi_thread/src/calqueue.c:181-224 | from a sound cursor the edge moves as the scan, or by one year, or to the node |
| QueueModel.StaysInStepIff | multi_thread/src/calqueue.c:181-190 | a dequeue from an aligned cursor leaves it aligned if and only if the direct search realigns or the minimum was at most one year ahead |
| QueueModel.SampledKeeps | multi_thread/src/calqueue.c:81-86 | what the sampling dequeues and what it leaves are together the queue |
| QueueModel.SampledAscending | multi_thread/src/calqueue.c:81-86 | dequeues from sound cursors sample in ascending order, in either version |
| QueueModel.ResampledKeeps | multi_thread/src/calqueue.c:73-120 | sampling, putting back and restoring keep every entry, the cursor, the thresholds and the width |
| QueueModel.DistinctWidthOk | multi_thread/src/calqueue.c:49-123 | in either version distinct priorities give a usable width where each dequeue of the sampling starts from a sound cursor |
| QueueModel.RealignedSample | multi_thread/src/calqueue.c:81-86 | in the realigning variant, once aligned, that is always so |
| QueueModel.WidthOkIff | multi_thread/src/calqueue.c:88-114 | in either version a resize finds a width if and only if the large gaps of its sample add up to less than the distance from first to last |
| QueueModel.CopiedGood | multi_thread/src/calqueue.c:151-160 | the copy loop moves each node once: what is copied and what is left are always together the old calendar |
| QueueModel.MovedKeeps | multi_thread/src/calqueue.c:140-160 | the move keeps every entry and the last priority, goes to the other end of the array, and aligns the cursor |
| QueueModel.ResizedKeeps | multi_thread/src/calqueue.c:128-161 | a resize, sampling included, keeps the entries, whether or not it finds a width |
| QueueModel.ResizedWidth | multi_thread/src/calqueue.c:49-161 | the width a resize sets: 1 below two entries; else that of a sample of the exact size, which from sound cursors consists of the lowest entries queued, in order |
| QueueModel.PutDoubles | multi_thread/src/calqueue.c:273-275 | the number of buckets doubles exactly when a put makes more than two entries for each, below the maximum |
| QueueModel.DeqHalves | multi_thread/src/calqueue.c:193-194 | it halves exactly when a dequeue leaves fewer than half as many entries as buckets, less two |
| QueueModel.QuietSteps | multi_thread/src/calqueue.c:134-135 | while resizing is off, put and dequeue are only their list parts |
| QueueModel.PutAdds | multi_thread/src/calqueue.c:236-276 | a put adds its entry and nothing else, whatever resizing it causes |
| QueueModel.DeqRemoves | multi_thread/src/calqueue.c:163-198 | a dequeue removes the entry it serves and nothing else, whatever resizing it causes |
| QueueRuns.PutStands | multi_thread/src/calqueue.c:236-276 | a put at or after the last priority leaves the cursor standing, a sound one sound and an aligned one aligned, resizes included, in the code as written |
| QueueRuns.MinimumStands | multi_thread/src/calqueue.c:163-228 | a dequeue that serves a minimum, from a cursor that stands anywhere, leaves it standing and does not go back, resize included |
| QueueRuns.ResizedCursor | multi_thread/src/calqueue.c:128-161 | a resize that goes through aligns the cursor; one that does not leaves it as it was |
| QueueRuns.DeqInStep | multi_thread/src/calqueue.c:163-228 | the cursor of a dequeue stays aligned if and only if it realigns, the minimum was at most one year ahead, or a resize set the cursor |
| QueueRuns.DeqStands | multi_thread/src/calqueue.c:163-228 | a dequeue from a sound cursor serves a minimum and leaves the cursor standing: aligned by a resize, else moved as the scan or the direct search moves it |
| QueueRuns.RunConserves | multi_thread/src/calqueue.c:230-290 | over every run what was put is what is queued and what was served, through every resize, in either version |
| QueueRuns.GuidedIsMinimal | multi_thread/src/calqueue.c:163-228 | in either version all gets of a timely run whose gets start from sound cursors serve minima |
| QueueRuns.EveryGetServesMinimum | multi_thread/src/calqueue.c:163-228 | each of them takes an entry that is a minimum of what is queued at that moment, and nothing exactly from an empty queue |
| QueueRuns.NextGetIsSureIff | multi_thread/src/calqueue.c:163-228 | after any timely run whose gets so far served minima the next get is sure to serve one if and only if the cursor is sound |
| QueueRuns.RunServesInOrder | multi_thread/src/calqueue.c:163-290 | any timely run whose gets serve minima serves in ascending order, puts in between included, in either version |
| QueueRuns.GuidedRunIsOk | multi_thread/src/calqueue.c:49-161 | in either version a run of distinct priorities whose gets and samplings start from sound cursors never meets an unusable width |
| QueueRuns.GuidedRun | multi_thread/src/calqueue.c:163-290 | such a run goes through, loses nothing, and serves in ascending order |
| QueueRuns.RealignedRunIsOk | multi_thread/src/calqueue.c:49-161 | with distinct priorities the realigning variant never meets an unusable width |
| QueueRuns.RealignedIsGuided | multi_thread/src/calqueue.c:36-38 | in the realigning variant all gets and samplings start from sound cursors |
| QueueRuns.RealignedRun | multi_thread/src/calqueue.c:163-290 | every run of the realigning variant with timely puts of distinct priorities goes through, loses nothing, and serves in ascending order |
| QueueRuns.CopyCost | multi_thread/src/calqueue.c:152-160 | over any run the copy loops re-insert at most three nodes per put or get |
| QueueRuns.PutSettled | multi_thread/src/calqueue.c:40-42 | a put that goes through leaves the size between the thresholds |
| QueueRuns.DeqSettled | multi_thread/src/calqueue.c:40-42 | so does a dequeue |
| QueueTies.StoredTies | multi_thread/src/calqueue.c:248-270 | a put comes behind all entries of its priority, in the whole calendar |
| QueueTies.ServedTies | multi_thread/src/calqueue.c:181-190 | a dequeue takes the first of the entries of its priority |
| QueueTies.MovedTies | multi_thread/src/calqueue.c:151-160 | the copy of a resize keeps the order of the entries of each priority |
| QueueTies.ResizedTies | multi_thread/src/calqueue.c:73-160 | a resize puts those entries of a priority that it sampled behind those that it did not, and keeps the order in both groups |
| QueueTies.OtherTiesStay | multi_thread/src/calqueue.c:73-160 | from sound cursors it therefore changes no order but that of the last priority sampled |
| QueueExamples.DirectSearchLosesOrder | multi_thread/src/calqueue.c:212-224 | the code as written serves 3.1, 4.2, 3.7 after timely puts of 3.1, 3.7, 4.2 |
| QueueExamples.DirectSearchLosesWidth | multi_thread/src/calqueue.c:49-123 | the code as written computes a negative width from the distinct, timely puts 3.1, 3.7, 3.71, 4.4, 5.0 |
| QueueExamples.TiesLoseTheWidth | multi_thread/src/calqueue.c:97-114 | when all priorities are equal a resize divides by zero |
| QueueExamples.Sorts | multi_thread/src/calqueue.c:230-290 | putting in entries of distinct priorities and taking all out sorts them, in the realigning variant |
| CalendarQueue.CalendarQueue.LocalInitialize | multi_thread/src/calqueue.c:19-43 | sets every field but the resize flag and clears the buckets in use, and no others |
| CalendarQueue.CalendarQueue.Walk | multi_thread/src/calqueue.c:252-267 | the loop finds the place behind every node that is not later |
| Buckets.SpliceIn | multi_thread/src/calqueue.c:252-267 | on nodes linked by next pointers: the walk and the splice keep all nodes in order, put the new one where the list walk puts it, and change no other chain |
| Buckets.Unlink | multi_thread/src/calqueue.c:181-190 | the head's successor becomes the head, and stands for the list without its head |
| CalendarQueue.CalendarQueue.Put | multi_thread/src/calqueue.c:236-276 | does what the model's put does, resizes included; array slots outside the calendar stay untouched where it does not resize |
| CalendarQueue.CalendarQueue.Scan | multi_thread/src/calqueue.c:175-210 | stops at the first hit of the year or after one round, moving the edge one width a step |
| CalendarQueue.CalendarQueue.DirectSearch | multi_thread/src/calqueue.c:212-220 | the loop over all buckets finds a bucket with a lowest head |
| CalendarQueue.CalendarQueue.Serve | multi_thread/src/calqueue.c:175-190 | the served entry and the state left behind are the model's |
| CalendarQueue.CalendarQueue.Deq | multi_thread/src/calqueue.c:163-228 | None exactly on the empty queue, else the model's dequeue with its resize |
| CalendarQueue.CalendarQueue.Resize | multi_thread/src/calqueue.c:128-161 | the model's resize; nothing while resizing is off |
| CalendarQueue.CalendarQueue.CopyBuckets | multi_thread/src/calqueue.c:151-160 | the copy loop, which reads the old calendar while it fills the new one in the other end of the array, never resizes and never overwrites what it has still to read |
| CalendarQueue.CalendarQueue.NewWidth | multi_thread/src/calqueue.c:49-123 | the model's width, with the queue as sampling leaves it |
| CalendarQueue.CalendarQueue.TakeSample | multi_thread/src/calqueue.c:79-86 | the sample and the sum of its gaps; no node of it is missing |
| CalendarQueue.CalendarQueue.Get | multi_thread/src/calqueue.c:278-290 | the payload of the entry served |
| CalendarQueue.CalendarQueue.IsEmpty | multi_thread/src/calqueue.c:292-294 | true exactly when nothing is queued |
| QueueDriver.Execute | multi_thread/src/calqueue.c:230-290 | a new queue driven through any sequence of puts and gets serves what the model's run serves |
| Agenda.Enter | multi_thread/src/calqueue.c:236-276 | for a client: the entries queued grow by one; a put that is not before the last get leaves the cursor standing, and the realigning queue in step and, without equal times, going |
| Agenda.Serve | multi_thread/src/calqueue.c:278-290 | for a client: nothing only from an empty queue; in either version a minimum, not before the last one, from every sound cursor; a get that serves a minimum leaves the cursor standing, and the realigning queue in step |
| Random.StepFits | multi_thread/src/numerical.c:21-22 | neither step exceeds 32 bits |
| Random.StepIsDivision | multi_thread/src/numerical.c:21 | 65536 times the step is its argument plus a multiple of m = 36969 * 65536 - 1 |
| Random.StepPermutes | multi_thread/src/numerical.c:21 | the step keeps 1..m-1 and multiplying by 65536 modulo m undoes it |
| Random.StepIsOnto | multi_thread/src/numerical.c:21 | and reaches every value of that range |
| Random.OrbitStaysAndReturns | multi_thread/src/numerical.c:21 | no number of steps leaves the range, and as many inverse steps lead back |
| Random.SeedComesBack | multi_thread/src/numerical.c:21 | every seed in range comes back after finitely many steps |
| Random.NeverReseeded | multi_thread/src/numerical.c:14-22 | a nonzero seed is never drawn again, and the high half stays 0 |
| Random.FreshRun | multi_thread/src/numerical.c:14-22 | from a thread's first call on: once the C library gives an x other than 0, the seed after n more calls is the n-th iterate of x in the low word, and 0 in the high word |
| Random.FreshOutput | multi_thread/src/numerical.c:25 | and what a call returns is that iterate with its 16-bit halves exchanged, plus 1, scaled |
| Random.OutputsDiffer | multi_thread/src/numerical.c:25 | different seeds with high half 0 give different outputs |
| Random.Generator.Random | multi_thread/src/numerical.c:11-26 | a seed of 0 is replaced by the number drawn; the seed moves by both steps, and the output, which lies strictly between 0 and 1, is that of the new seed |
| Noise.Source.Expent | multi_thread/src/numerical.c:29-35 | takes one number u of the generator and gives -mean * ln(1 - u), which is never negative, for a mean that is not |
| Noise.Source.Gain | multi_thread/src/channel.c:64-81 | takes one number u and gives the base times ten to the power u |
| Channels.SetBitSets | multi_thread/src/model.h:27-39 | setting a channel's bit sets it and no other |
| Channels.ResetBitResets | multi_thread/src/model.h:27-42 | resetting clears it and no other |
| Channels.BitWeight | multi_thread/src/model.h:27-29 | setting a clear bit adds its weight to the word, resetting a set one takes it away |
| Channels.AgreeAdd | multi_thread/src/channel.c:136-155 | bits and list go on naming the same channels when a free one is entered in both |
| Channels.AgreeRemove | multi_thread/src/channel.c:93-108 | and when one is taken out of both |
| Channels.Table.FindFree | multi_thread/src/channel.c:126-132 | the least free channel, -1 only if none is free |
| Channels.Table.Push | multi_thread/src/channel.c:138-155 | a new head; next and prev stay inverse along the list |
| Channels.Table.Unlink | multi_thread/src/channel.c:93-104 | any position of the list can be taken out, next and prev staying inverse |
| Channels.Table.FindChannel | multi_thread/src/channel.c:87-92 | finds the record of the channel, or none exactly when it is not listed |
| Channels.Table.ChoosePower | multi_thread/src/channel.c:157-175 | the least power if nothing interferes; else, with a new fading, the power at which the signal is SIR_AIM times the interference, or the limit of MIN_POWER and MAX_POWER nearest to it, without a division by zero |
| Channels.Table.Interference | multi_thread/src/channel.c:157-166 | the sum over the other busy channels of gain times power times fading, each fading drawn anew |
| Channels.Table.Allocation | multi_thread/src/channel.c:118-186 | occupies the least free channel in bits and list and changes no other, with new fadings; refused, with nothing changed, exactly when all are busy |
| Channels.Table.Deallocation | multi_thread/src/channel.c:84-115 | takes exactly the named channel out of bits and list, with new fadings for the others; refused, with nothing changed, exactly when it is not busy |
| Channels.Table.FadingRecheck | multi_thread/src/channel.c:27-36 | gives every busy channel a fading drawn with mean 1, and leaves the list as it was |
| Events.ServedIsBooked | multi_thread/src/model.c:57-95 | what a queue with one START_CALL and one END_CALL per busy channel serves is one of these, and the rest is the account without it |
| Events.ShortListMisses | multi_thread/src/channel.c:126-132 | fewer busy channels than channels leave one free |
| Events.RecomputeTa | multi_thread/src/channel.c:39-61 | between 0.8 and 5 times the reference |
| Events.WorkingDay | multi_thread/src/channel.c:39-61 | the rate at each time of the first five days of a week |
| Events.WeekEnd | multi_thread/src/channel.c:39-47 | and of the other two, the first second of which still counts as an early morning |
| Histories.SoundIsOrdered | multi_thread/src/main.c:68-90 | in either version, while every event was fetched from a sound cursor, the times of the events did not go back and each was a minimum of what was queued |
| Histories.PastIsOrdered | multi_thread/src/main.c:68-90 | so up to the first cursor that is not sound; with the realigning queue none is |
| Histories.NextFetchIsSureIff | multi_thread/src/main.c:69-79 | a queue with one START_CALL and an END_CALL per busy channel is sure to give the next event if and only if its cursor is sound |
| Histories.EventsInTime | multi_thread/src/model.c:64-95 | over any run every START_CALL but the first comes a draw of the mean time between calls after the one before it, at the rate of that one's hour, and every END_CALL comes a draw of the mean duration after the START_CALL that got its channel, which was busy all the time between |
| Simulation.TallySteps | multi_thread/src/model.c:64-91 | arriving = blocked + complete + busy, counted modulo 2 to the 32nd, survives each way the counters move |
| Simulation.Admit | multi_thread/src/model.c:66-73 | blocked exactly when the free counter is 0; otherwise one more channel is busy, and all counters agree |
| Simulation.ScheduleNext | multi_thread/src/model.c:72-78 | queues the END_CALL of a connected call at now plus the first wait, and the next START_CALL at now plus the second, and nothing else |
| Simulation.StartCall | multi_thread/src/model.c:64-80 | the call gets the least free channel unless all are busy, its END_CALL comes a draw of the mean duration later and the next START_CALL a draw of the mean time between calls at this hour; afterwards these and the earlier END_CALLs are queued and all counters agree |
| Simulation.EndCall | multi_thread/src/model.c:82-91 | frees its channel, and ends the run exactly at the last call that counts |
| Simulation.ProcessCall | multi_thread/src/model.c:22-99 | never aborts, keeps queue, counters, bits and list in agreement, and changes the account as the event says |
| Simulation.ProcessInit | multi_thread/src/model.c:37-62 | sets the agreement up, with the first START_CALL at 20 times the number drawn |
| Simulation.Fetch | multi_thread/src/main.c:69-79 | an event is always there, it is the cell's own and what the queue at that moment serves, and what is queued is the rest of the account; the cursor goes on standing where it was a minimum; with the realigning queue a stop takes two equal times |
| Simulation.Turn | multi_thread/src/main.c:68-90 | one turn never aborts, counts its event, changes the account as the event says, and keeps the agreement; the cursor goes on standing where its event was a minimum; with the realigning queue a stop takes two equal times |
| Simulation.NextTurn | multi_thread/src/main.c:68-90 | the same for the run so far: the events handled, the queues they were fetched from, the accounts between them, and what the counters count |
| Simulation.MainLoop | multi_thread/src/main.c:40-90 | for any number of turns no abort and no failure exit; where the run goes on, all turns were taken, queue, counters, bits and list agree, and the counters are those of the events handled; it ends after the last call that counts; each event was booked in the account that the events before it made; in either version the events' times never decrease before the first fetch from a cursor that is not sound; with the realigning queue they never decrease, and the queue stops only at two equal times |
| SimulationExamples.TimeGoesBack | multi_thread/src/model.c:37-80 | with the queue as written, puts and gets as the handler makes them, at times 3.1, 3.7, 4.2, 9.0, 10.0 without ties, give 4.2 before 3.7, from a queue that meets the account |
| SimulationExamples.StopsWithoutTies | multi_thread/src/model.c:37-80 | with the queue as written, fifteen such operations without ties end at a resize without a usable width |
| UltHandoff.NextKeeps | multi_thread/src/ult.c:31-221 | every step of every thread keeps the invariant of flags, holders and saved contexts |
| UltHandoff.JumpKeeps | multi_thread/src/ult.h:24-36 | so does a jump, by the thread that holds the target's flag |
| UltHandoff.FlagMeansHolder | multi_thread/src/ult.c:31-54 | in every interleaving a flag is set exactly while one thread holds it, and no two hold it |
| UltHandoff.NoFiberRunsTwice | multi_thread/src/ult.c:207-221 | no two threads execute the same fiber |
| UltHandoff.JumpsAreUpToDate | multi_thread/src/ult.h:24-36 | a thread that is about to jump holds the target's flag, and the target was saved since it last ran |
| UltHandoff.NewFiberIsFree | multi_thread/src/ult.h:31-36 | the creator never waits for its new fiber's flag |
| UltRuns.OthersLeaveSaved | multi_thread/src/ult.h:24-36 | only a jump to it touches the context of a fiber that was saved since it ran |
| UltRuns.ResumesWhereItLeft | multi_thread/src/ult.h:24-36 | in every interleaving a fiber that goes on, on whichever thread, has the registers it was left with, behind the place where it was left |
| UltRuns.KnownCanBeTaken | multi_thread/src/ult.c:170-221 | in every interleaving a fiber that was converted, or whose creation returned, can be taken by any thread in user code at any later moment when its flag is clear |
| UltRuns.SwitchCompletes | multi_thread/src/ult.c:207-221 | a switch without interference leaves the old fiber free with its registers saved, and the thread on the target with the target's registers and flag |
| UltRuns.SwitchRefused | multi_thread/src/ult.c:207-212 | a switch to a fiber in use changes nothing |
| UltRuns.ConvertCompletes | multi_thread/src/ult.c:170-183 | a conversion leaves the thread in user code with its registers, on a new fiber that it holds and that is known; no other fiber changes |
| UltRuns.CreationBoots | multi_thread/src/ult.c:112-141 | up to the boot code: the creator is saved and free, the thread runs on the new stack |
| UltRuns.CreationCompletes | multi_thread/src/ult.c:80-141 | a creation without interference returns with the creator's registers and fiber, and the new fiber free, known and ready to call its function |
| Jmp.FlagsSurvive | multi_thread/src/jmp.S:29-32 | the six status flags survive lahf, seto, addb $0x7f and sahf, whatever rax held |
| Jmp.Cpu.SetJmp | multi_thread/src/jmp.S:25-69 | fills the record with the caller's context and returns 0 to the caller, touching the record and three stack words only |
| Jmp.Cpu.LongJmp | multi_thread/src/jmp.S:93-132 | goes on at the record's address with the record's registers, flags and FPU state and the given value in rax |
| Jmp.KeepsRecord | multi_thread/src/jmp.S:96-100 | the two words it writes do not belong to the record |
| Jmp.CalledContext | multi_thread/src/jmp.h:32-38 | with rdi as the macro pushed it, the record's content is the context at the macro |
| Jmp.FirstReturnKeeps | multi_thread/src/jmp.S:25-69 | the first return keeps rbx, rbp, r12 to r15 and the stack pointer |
| Jmp.RoundTrip | multi_thread/src/jmp.S:93-132 | whatever happens between a save and a jump, on any processor, as long as the record is intact: registers, flags and FPU state are those at the macro, rax is the jump's value, and the stack pointer that of the first return |
| Jmp.SaveThenResume | multi_thread/src/jmp.S:25-132 | the same for the two procedures one after the other: after the jump a processor has the registers, flags and FPU state of the macro, rax and the stack pointer excepted |
| Jmp.SavedMayJump | multi_thread/src/jmp.S:96-100 | a record that a save filled satisfies what a jump needs |
| KernelFibers.OneInside | multi_thread/Module/fiber_ioctl.c:214-250 | two tasks of a process are never both past the search of the target |
| KernelFibers.IdleIsFree | multi_thread/Module/fiber_ioctl.c:220-226 | to a task that holds the lock and searches, a fiber is marked as running exactly if a thread has it |
| KernelFibers.NextKeyIsNew | multi_thread/Module/fiber_ioctl.c:132 | the index a new fiber gets is not in use |
| KernelFibers.PurgeKeeps | multi_thread/Module/fiber_ioctl.c:90-94 | freeing a process record with no thread left breaks nothing |
| KernelFibers.NextKeeps | multi_thread/Module/fiber_ioctl.c:99-370 | every step of every task, switches split and interleaved, keeps the invariant |
| KernelRuns.RunningMeansActive | multi_thread/Module/fiber_ioctl.c:227-247 | in every interleaving a fiber is marked as running exactly while it is the active fiber of one registered thread of its process, the moment inside a switch excepted, and of no two |
| KernelRuns.SwitchesExclude | multi_thread/Module/fiber_ioctl.c:214-250 | no two tasks of a process are in the middle of a switch |
| KernelRuns.LockMeansInside | multi_thread/Module/fiber_ioctl.c:214-251 | a taken lock means that a task of the process is in its critical section; a task in it that is registered, or past the search, means that the lock is taken, and of registered ones there is one at most: every path releases it |
| KernelRuns.RegistersAreOwn | multi_thread/Module/fiber_ioctl.c:227-246 | a thread in user code has its fiber's context in its registers; a fiber that is not active has it saved |
| KernelRuns.NextRefines | multi_thread/Module/fiber_ioctl.c:99-370 | every step is exactly the step of the simple machine in which each fiber owns its context and storage, and a switch changes only which fiber is active, in its last step |
| KernelRuns.OthersLeaveItAlone | multi_thread/Module/fiber_ioctl.c:99-370 | only the code that runs on a fiber changes its context or storage |
| KernelRuns.ResumesWhereItLeft | multi_thread/Module/fiber_ioctl.c:227-246 | a fiber that goes on, on whichever thread, has the registers, FPU state and storage it was left with |
| KernelRuns.FreshFiberStarts | multi_thread/Module/fiber_ioctl.c:171-191 | a created fiber starts with ip at its function, di the parameter, sp and bp the stack, the creator's other registers and FPU state, and no storage |
| KernelRuns.SwitchCompletes | multi_thread/Module/fiber_ioctl.c:213-250 | a switch without interference to a free fiber is one exchange of contexts, marks and active fiber |
| KernelRuns.SwitchRefused | multi_thread/Module/fiber_ioctl.c:215-226 | a switch to a running fiber counts a failed activation, one to no fiber changes nothing |
| KernelRuns.FreedWhenNobodyIsLeft | multi_thread/Module/fiber_ioctl.c:79-94 | a process record is freed exactly by the exit of its thread when that is the last registered one of all |
| KernelRuns.IndicesAreNotReused | multi_thread/Module/fiber_ioctl.c:132 | while a process record lives, the index of a fiber that is gone never names a fiber again |
| KernelRuns.CountsAgree | multi_thread/Module/fiber_ioctl.c:82-148 | count_threads is the number of registered threads, and every index lies from 0 below fiber_id |
| KernelDriver.Driver.ConvertToFiber | multi_thread/Module/fiber_ioctl.c:102-152 | -1 exactly for a registered thread; else one new fiber, with the next index of its process, the thread's own, running, with the thread's registers and no storage, activated once, and no other fiber changes |
| KernelDriver.Driver.CreateFiber | multi_thread/Module/fiber_ioctl.c:154-196 | -1 exactly for a thread that is not registered; else one new fiber, with the next index of its process, free, never activated, with ip, di, sp and bp as given, the creator's other registers and no storage, and no other fiber changes |
| KernelDriver.Driver.SwitchToFiber | multi_thread/Module/fiber_ioctl.c:198-253 | each of its outcomes: no process, no fiber, running fiber, thread not registered; and the whole switch, after which the thread has the target's context, no context or storage of a fiber has changed, and of marks and counters just those of the two fibers |
| KernelDriver.Driver.FlsAllocate | multi_thread/Module/fiber_ioctl.c:255-283 | on the bitmap and array of the fiber that the thread now runs: the least free slot, with value 0, or -1 if there is no fiber or no free slot; storage and context of all other fibers stay |
| KernelDriver.Driver.FlsRelease | multi_thread/Module/fiber_ioctl.c:285-307 | frees the slot, exactly if the thread has a fiber and the slot is above 0 and in the bitmap; storage and context of all other fibers stay |
| KernelDriver.Driver.FlsGet | multi_thread/Module/fiber_ioctl.c:309-339 | a value exactly if the thread has a fiber and the slot is allocated there, and then the one stored |
| KernelDriver.Driver.FlsPut | multi_thread/Module/fiber_ioctl.c:341-368 | a later read of the slot on this fiber gives the value, if it is allocated; all its other slots and all other fibers stay |
| KernelDriver.Driver.PreHandler | multi_thread/Module/fiber_ioctl.c:70-96 | the exiting thread and its fiber go, with the last thread the fibers of its process, and nothing else changes |
| KernelDriver.SwitchedTakes | multi_thread/Module/fiber_ioctl.c:227-246 | a whole switch leaves every fiber's context and storage as it was, and changes which fiber is active |
| FiberStorage.AllocIsLeast | multi_thread/Module/fiber_ioctl.c:267-277 | alloc gives the least free slot, with value 0, and leaves the others alone; it fails exactly when all are taken |
| FiberStorage.FreedIsReusable | multi_thread/Module/fiber_ioctl.c:299-303 | a freed slot above 0 reads as unallocated, the next alloc gives it or a lower one, and the other slots stay |
| FiberStorage.SetThenGet | multi_thread/Module/fiber_ioctl.c:361-365 | what is set in an allocated slot is read back; any other slot reads as before |
| FiberStorage.Storage.FlsAlloc | multi_thread/Module/fiber_ioctl.c:267-277 | bitmap and array do what the partial map does |
| FiberStorage.Storage.FlsFree | multi_thread/Module/fiber_ioctl.c:299-303 | bitmap and array do what the partial map does |
| FiberStorage.Storage.FlsGetValue | multi_thread/Module/fiber_ioctl.c:325-336 | a value exactly for an allocated slot |
| FiberStorage.Storage.FlsSetValue | multi_thread/Module/fiber_ioctl.c:361-365 | changes an allocated slot only |
| FiberTime.NextKeeps | multi_thread/Module/proc.c:298-335 | every step keeps: charges disjoint per fiber and per CPU, totals equal to what was charged, running clocks started after the last charge |
| FiberTime.ChargesNeverOverlap | multi_thread/Module/proc.c:308-318 | over every run the intervals charged to a fiber, by switches and by dispatches, never overlap, and its total is what they add up to |
| FiberTime.TotalsWereSpent | multi_thread/Module/proc.c:298-335 | over every run 1000 times the total times of any fibers together is at most the nanoseconds that passed on the CPUs |
| FiberTime.DispatchChargesItsTime | multi_thread/Module/proc.c:306-333 | a dispatch, the first on each CPU excepted, charges the fiber that leaves the CPU exactly the time since it came there, and no other |
| FiberTime.SwitchChargesItsTime | multi_thread/Module/fiber_ioctl.c:235-247 | so does a switch between fibers, except on a clock at zero |
| FiberTime.Accounts.SwitchHandler | multi_thread/Module/proc.c:298-335 | the handler does the dispatch step of the accounting |
| FiberTime.Accounts.SwitchTo | multi_thread/Module/fiber_ioctl.c:235-247 | the accounting of a switch between fibers |
| KernelTime.NextIsTimed | multi_thread/Module/fiber_ioctl.c:99-370 | every step of the kernel's machine by the task on a CPU is the corresponding step of the accounting: threads, active fibers and fiber records stay the same in both |

## Left out

Calendar queue:

- Floating-point rounding, and overflow where bucket numbers are converted to `int` and `long`: priorities are reals and bucket numbers unbounded integers.
- What the code does after a resize without a usable width: the model stops there.
- CalendarQueue.CalendarQueue.Walk: inside the class bucket lists are values; the splice through next pointers is `Buckets.SpliceIn`, for one bucket. `malloc` and `free` are not captured.
- CalendarQueue.CalendarQueue.TakeSample: the loop of the original that puts the sample back also measures its gaps; here measuring is a loop of its own, `Width.Measure`.
- QueueRuns.RunServesInOrder: for the code as written only for runs whose gets serve minima, as they do from sound cursors; the general claim is false, see `QueueExamples.DirectSearchLosesOrder`, and from any other cursor some queue is served out of order, see `QueueRuns.NextGetIsSureIff`.
- QueueModel.DistinctWidthOk: for the code as written only where the sampling starts from sound cursors; the general claim is false, see `QueueExamples.DirectSearchLosesWidth`.

Simulation:

- Channels.BitWeight: words are natural numbers with bit operations by halving and doubling, shown to stay within 32 bits; the machine's shift and mask instructions are not modelled.
- Noise.Source.Expent: `log` and `pow` are parameters, of which only the signs are assumed; rounding in `1 - Random()` is not modelled.
- Simulation.MainLoop: for the queue as written times are in order only while its fetches start from sound cursors; the general claim is false, see `SimulationExamples.TimeGoesBack`, and so is the claim that it stops only at ties, see `SimulationExamples.StopsWithoutTies`. The queue and the state are held directly, not through fiber-local storage; the random numbers of reseeding are arbitrary, the number of turns is a parameter, and what follows the loop is left out.
- Handoffs between cells, which the event handler does not implement; timing of the run; random choice of fibers; alarms and threads.

User-space fibers:

- Signals, `sigaltstack`, stack allocation and contents; the machine's registers are one opaque value, and a resumed `set_jmp` returns a nonzero value.
- The instructions a thread executes on its old stack between clearing its flag and the jump are the jump alone; weak memory ordering.
- The library's own fiber-local storage, one shared array without freeing.
- Jmp.RoundTrip: addresses do not wrap, stack and record are 8- and 16-byte aligned and apart; memory is read and written in quadwords; the 512 bytes of `fxsave` are one value.

Kernel fibers:

- Convert, Create, FLS and exit are single steps; races inside them, such as two threads creating one process record, are not modelled.
- A task that is not registered and is inside SWITCHTOFIBER while the last registered thread exits goes on with a freed record; here it only leaves.
- Failing allocations and copies from and to user memory, and leaked records; the value a call returns in a register of the thread.
- KernelFibers.NextKeeps: tables are maps that steps replace, because threads interleave; hash chains and the lock around the thread table are not modelled. `KernelDriver.Driver` updates them in place for a caller that is not interrupted.
- FiberStorage.Storage.FlsGetValue: a slot number outside the bitmap, which the driver does not check before it tests a bit there, is not modelled.
- FiberStorage.Storage.FlsSetValue: the same.
- KernelDriver.Driver.FlsGet: the same.
- KernelDriver.Driver.FlsPut: the same.
- FiberTime.TotalsWereSpent: a dispatch reads the clock once, and the clock never goes back.
- The `/proc` entries, module set-up, ftrace hooks, device registration, and the wrappers around the calls.
- The earlier single-threaded variant of module and library.
