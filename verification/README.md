# Vertex: a verified model

Vertex runs distributed coordination experiments: agents emulate generators, agree on
a reference through lossy radio packets, log what they did, and are driven by a hub. This
project models the parts whose correctness is not obvious from any one function and
proves what they are for. Verify with `dafny verify dfyconfig.toml`.

| module | what it models |
|---|---|
| `RealMath`, `Gf2`, `Options` | order facts about reals; polynomials over GF(2) and powers of two; absent values |
| `Numeric` | rounding and the 1e-6 fixed-point grid |
| `Virtual`, `Convergence` | the semi-implicit observer; geometric convergence of a fleet of them |
| `Neighbors`, `FleetHull` | the held receive cache; the fleet as a transition system over a lossy medium |
| `Plant`, `Interfaces`, `Microgrid` | the emulated generator, the two interfaces, and the controller that composes them |
| `DeadZone`, `Deadbeat`, `Estimator` | finite adaptation of the one interface; deadbeat behaviour of the other and the energy of its estimator |
| `Effort` | the applied command rebuilt from the log alone |
| `Crc`, `Frames`, `StateCodec`, `SerialLink` | the checksum, the byte parser, the report codec, the request slot |
| `Pcg32` | the random generator |
| `VirtualTime`, `SimDriver` | simulated time and its driver over an arbitrary event loop |
| `PeriodicLoop`, `ClockedLoop` | the drift-free periodic loop and the publish cadence; the loop as a task of the driven event loop |
| `AgentService`, `Orchestration` | the agent's and the hub's side of a run, with lost messages |
| `RunLog`, `Load` | the buffered binary log and its reader |
| `ScalarLaw`, `Tracking`, `Ring` | the scalar consensus law: what a fleet of it conserves, how each plant follows; ring topologies |

Conventions. Floats are reals and float64 log cells are 64-bit words. `exp`, `sin` and
`tanh` are parameters known only by the bounds `Plant.Maths.Sound` states, and the power
in the scalar coupling is an arbitrary function. An object the source updates in place is a
class whose methods are proved equal to a function of its abstract value (`Value()`); the
theorems are about those functions, over every run, history or input. Clock readings, task
behaviour, packet delivery and the fate of each command are parameters, so a theorem about
a run holds for all of them.

Where the code is not what one might expect, the exact condition is proved.

- The driver of simulated time counts parked sleeps, not parked tasks. Its documented rule,
  never to advance while a task is runnable, is kept in a world exactly when no live task is
  loose there or more are than cancelled sleeps are left in the heap
  (`SimDriver.RuleKeptIff`); any heap with a cancelled sleep can be fooled
  (`SimDriver.StaleFools`), in reachable worlds too. A periodic loop can then be late
  (`ClockedLoop.StaleSleepDelaysTheLoop`), and is exact as long as no advance
  is made with a cancelled sleep in the heap (`ClockedLoop.RunsExactly`).
- A request is answered by the first reply-type frame that completes after it, so a late
  reply to a request that timed out, even one half read by then, answers the next one:
  `SerialLink.LateReplyAnswers`, `SerialLink.SplitReplyAnswers`; when a reply is the
  request's own: `SerialLink.OwnReplyIff`.
- Damage to the last payload byte and the first checksum byte goes undetected when it is
  0x89 in the one and 0xA1 in the other, and only then, because the checksum is sent low
  byte first: `Crc.BoundaryDamageIff`.
- A run log started again without a close truncates its file but keeps its buffer, so rows of
  the run before come first in the new file and are not counted: `RunLog.Log.Start`.
- The scalar law's gain stops rising when the dead-band is wide enough for the kick dt
  vartheta of its last value (`Tracking.RisesBounded`), which is exactly when the band keeps
  every error in it (`Tracking.AbsorbsIff`); without that it can rise and the error grow for
  ever with nothing disturbing it: `Tracking.ChattersForEver`.
- When the reply to a scheduled event is lost, the agent runs the new parameters and the hub
  restores the old ones on its record: `Orchestration.EventCurrentIff`.
- The offline clip and the controller's saturation differ for a negative limit, which the
  manifest does not admit: `Effort.RowRebuiltIff`.
- A log with neighbours and more than two coordinates has fewer names than columns:
  `RunLog.NamesMatchWidthIff`.
- `round_half_up` says ties go away from zero toward +infinity; the code sends them up.

## Model

| member | source | states |
|---|---|---|
| Numeric.RoundHalfUpIff | vertex/numeric.py:42-52 | the rounded value is the only integer r with r - 1/2 <= x < r + 1/2, so ties go up, for negative x too |
| Numeric.QuantizeGrid | vertex/numeric.py:70-77 | a value on the 1e-6 grid survives quantize after dequantize exactly |
| Numeric.QuantizeMonotone | vertex/numeric.py:70-72 | quantize preserves order |
| Numeric.QuantizeWithin | vertex/numeric.py:70-77 | quantizing never leaves an interval whose ends are on the grid, in scaled integers and back in units |
| Numeric.QuantizeError | vertex/numeric.py:70-77 | the wire loses at most half a grid step, and never a full half downwards |
| Virtual.ThetaRange | vertex/controllers/virtual.py:139-143 | the convex weight is in [0, 1) for every nonnegative gain |
| Virtual.SemiImplicit | vertex/controllers/virtual.py:146-160 | the step solves the implicit equation (1 + h a D) z+ = z + h a w, without a division |
| Virtual.StepLaw | vertex/controllers/virtual.py:146-160 | (1 + h c (alpha + kappa_o) D) z+ = z + h c (alpha + kappa_o) w in both coordinates, written from the parameters |
| Virtual.ConvexForm | vertex/controllers/virtual.py:22-28 | the explicit step equals (1 - theta) z + theta w/D |
| Virtual.ScheduleFloor | vertex/controllers/virtual.py:131-137 | the schedule never falls below its value at time 0 |
| Virtual.ScheduleIff | vertex/controllers/virtual.py:131-132 | the schedule is the one number with alpha (T_o - t) = alpha_0 T_o before the cap and alpha delta_o = alpha_0 T_o from T_o - delta_o on |
| Virtual.ScheduleRises | vertex/controllers/virtual.py:131-132 | it rises strictly up to the cap and is constant from there on |
| Virtual.GainGrows | vertex/controllers/virtual.py:161-162 | the adapted gain never decreases |
| Virtual.GainLaw | vertex/controllers/virtual.py:161-162 | c+ - c = h 2 alpha xi (alpha + kappa_o)^2 times the squared norm of D z - w, written from the parameters |
| Virtual.GainRisesIff | vertex/controllers/virtual.py:161-162 | for admitted parameters the gain rises exactly when the period, alpha_0, xi and the disagreement are all nonzero |
| Virtual.TickStaysIn | vertex/controllers/virtual.py:110-166 | hold, candidate and commit keep the local value in every rectangle holding it, its neighbours and a pinned reference; the gain does not drop and the next step is defined |
| Virtual.VirtualLayer.HoldSnapshot | vertex/controllers/virtual.py:110-128 | the accumulating loop freezes the neighbour sum plus the pinned term; a snapshot of the wrong size is refused and changes nothing |
| Virtual.VirtualLayer.Compute | vertex/controllers/virtual.py:146-163 | computes the candidate of the held snapshot and writes nothing; its gain moves by h 2 alpha xi (alpha + kappa_o)^2 times the squared disagreement |
| Virtual.VirtualLayer.CommitValues | vertex/controllers/virtual.py:165-166 | replaces the local value and the gain only |
| Virtual.VirtualLayer.constructor | vertex/controllers/virtual.py:92-107 | a new layer starts from its own values, c_0 and its own pinned reference |
| Convergence.NeverGrows | vertex/controllers/virtual.py:110-166 | with exact synchronous exchange no number of ticks takes the fleet further from the pinned reference, in the maximum norm |
| Convergence.RoundShrinks | vertex/controllers/virtual.py:110-166 | every L + 1 ticks the whole fleet distance shrinks by 1 - b (theta/Dmax)^(L+1), where every agent is within L reads of a pin |
| Convergence.Converges | vertex/controllers/virtual.py:110-166 | geometric convergence over any number of such rounds, however the gains adapt |
| Convergence.FactorShrinks | vertex/controllers/virtual.py:139-143 | that factor is at least 0 and strictly below 1 |
| Convergence.FloorPositive | vertex/controllers/virtual.py:139-143 | a positive initial gain and schedule give a positive, strict lower bound on every weight |
| Convergence.ThetaAboveFloor | vertex/controllers/virtual.py:131-143 | no later weight falls below the weight of the initial gain at time 0, however the gain has adapted |
| Convergence.TickFelt | vertex/controllers/virtual.py:110-166 | each tick carries the pull of the pin one read further through the fleet |
| Convergence.PullClosed | vertex/controllers/virtual.py:139-143 | the recursively defined pull over d reads equals b (theta/Dmax)^(d+1) |
| Neighbors.HeldIsLast | vertex/agent/neighbors.py:70-90 | after any receptions in any order a declared neighbour holds its last one, with its sequence number, times, flag and strength; every reception updated one record or was ignored; arrival flags are exactly the nodes heard |
| Neighbors.FlatAt | vertex/agent/neighbors.py:115-129 | cell j dim + k of the flat snapshot is coordinate k of neighbour j, zero if short or never heard |
| Neighbors.UsableIff | vertex/agent/neighbors.py:93-129 | after any receptions a declared neighbour is usable exactly when its last packet declared itself enabled and is within the age limit, or age does not matter; its value is that packet's, cut or padded with zeros |
| Neighbors.NeighborTable.Receive | vertex/agent/neighbors.py:70-90 | one record is replaced, or an undeclared sender only counted; the answer says which |
| Neighbors.NeighborTable.Snapshot | vertex/agent/neighbors.py:93-129 | the loop builds the flat values and, per neighbour, whether it is usable under either staleness policy |
| Neighbors.NeighborTable.Arrivals | vertex/agent/neighbors.py:160-184 | who was heard since the last call; reading clears |
| FleetHull.ObserverOfController | vertex/controllers/microgrid.py:208-234 | the fleet model's agent is the observer of the full controller, whatever its plant and interface do |
| FleetHull.NextInside | vertex/controllers/microgrid.py:187-234 | one tick, publication or delivery keeps every local, cached and in-flight value in the rectangle |
| FleetHull.HullForever | vertex/controllers/microgrid.py:187-234 | the same over every interleaving, with loss, delay, reordering and duplication of packets |
| FleetHull.HullFromStart | vertex/controllers/virtual.py:22-31 | from configuration on, only the initial values, the pinned references and 0 matter |
| Plant.ZetaWithinBound | vertex/controllers/plant.py:85-92 | in the 1-norm the matched uncertainty never exceeds its explicit bound, whatever the state, for positive ratings |
| Plant.AZetaRange | vertex/controllers/plant.py:46-53 | both uncertainty profiles stay in (0, 1e-3] |
| Plant.PerPersists | vertex/controllers/plant.py:46-53 | the persistent profile is at least 0.0005 for ever |
| Plant.RepDecays | vertex/controllers/plant.py:46-53 | the other one is multiplied by exp(-5 s) over any time s |
| Plant.MicrogridPlant.Step | vertex/controllers/plant.py:138-150 | one forward-Euler update under the applied command and the uncertainty at the old state |
| Plant.MicrogridPlant.constructor | vertex/controllers/plant.py:100-102 | the emulator starts at the given normalized state |
| Interfaces.ClipIff | vertex/controllers/interface_adaptive.py:94-97 | for a nonnegative limit the saturation lands in range and leaves a command alone exactly when it was in range |
| Interfaces.CorrectionTakes | vertex/controllers/interface_adaptive.py:88-92 | the clipped correction takes h vartheta off an error, or all of it when it is smaller |
| Interfaces.AdaptiveInterface.Step | vertex/controllers/interface_adaptive.py:80-110 | the command is formed from the old gain; the gain and the counter move afterwards, exactly when the trigger exceeds the threshold |
| Interfaces.AdaptiveInterface.constructor | vertex/controllers/interface_adaptive.py:70-74 | a new interface has its initial gain and no updates |
| Interfaces.LCInterface.Step | vertex/controllers/interface_lc.py:130-171 | terminal policy, prescribed-time gain and regressor form the command from the old estimate; the two gates decide whether the estimate moves |
| Interfaces.LCInterface.constructor | vertex/controllers/interface_lc.py:101-108 | a new estimator starts at zero |
| Microgrid.ErrorDynamics | vertex/controllers/microgrid.py:208-234 | feedforward cancels: the error moves only by the correction, the saturation excess and the uncertainty |
| Microgrid.ObserverSlope | vertex/controllers/virtual.py:158-160 | the committed value is the old one plus h times the logged slope |
| Microgrid.HealthyTick | vertex/controllers/microgrid.py:208-245 | with nonnegative gains and widths no tick ever divides by zero, and the gain does not drop |
| Microgrid.WatchdogIff | vertex/controllers/microgrid.py:136-160 | over any run the watchdog names the first bound any tick broke, for ever, and nothing while every tick stayed inside; the saturation bound is six saturated commands in a row at or after the deadline |
| Microgrid.TrailingIff | vertex/controllers/microgrid.py:143-154 | the saturation counter is at least n exactly when the last n commands all saturated |
| Microgrid.AtFixed | vertex/controllers/microgrid.py:208-245 | what no tick changes: parameters, period, plant, kind of interface; the step counter counts ticks |
| Microgrid.ReadsTheTable | vertex/controllers/microgrid.py:187-205 | from a table of two-coordinate neighbours the controller reads, for each in declared order, the held integers divided by 1e6 |
| Microgrid.MicrogridController.constructor | vertex/controllers/microgrid.py:86-129 | a new controller is in its initial state, untripped |
| Microgrid.MicrogridController.Snapshot | vertex/controllers/microgrid.py:187-205 | the loop reads degree pairs from the flat values, zeros where they are short |
| Microgrid.MicrogridController.Watchdog | vertex/controllers/microgrid.py:136-155 | counts saturated commands and names the first bound broken, in the order tested |
| Microgrid.MicrogridController.Step | vertex/controllers/microgrid.py:208-245 | snapshot, candidate, interface on the old states, plant, commit and latching watchdog, in that order, and the row it logs |
| DeadZone.ErrorStep | vertex/controllers/interface_adaptive.py:88-110 | one unsaturated tick: S+ <= max(S - h vartheta, 0) + h zeta_bound |
| DeadZone.TickMoves | vertex/controllers/interface_adaptive.py:99-110 | both trigger forms obey that recursion, and the gain rises exactly when the trigger exceeds the threshold |
| DeadZone.UpdatesBounded | vertex/controllers/interface_adaptive.py:99-110 | over a run of any length the updates are at most n1 + n2, the gain is its start plus gamma per update, and the trigger stays under its cap |
| DeadZone.ExplicitBound | vertex/controllers/interface_adaptive.py:99-110 | n1 and n2 written out from the start, the threshold, the period, the bound and gamma |
| DeadZone.Settles | vertex/controllers/interface_adaptive.py:99-110 | the triggering error is eventually within the threshold for good, and the gain stops |
| DeadZone.TriangleClosed | vertex/controllers/interface_adaptive.py:106-109 | the error spent by n further updates is the n-th triangular number of kicks |
| Estimator.EnergyLaw | vertex/controllers/interface_lc.py:130-171 | on an active, unsaturated tick with an open gate and Gamma = Phi kappa^2 > 0, with e = S - S_hat, R written out and N the squared norm: N(sigma+) + N(e+)/Gamma = (1 - h lam)^2 N(sigma) + N(e)/Gamma - 2 h^2 lam sigma.(R e) + h^2 (N(R e) + Gamma N(R sigma)) |
| Estimator.EstimateStep | vertex/controllers/interface_lc.py:155-170 | an open gate moves the estimate by h Gamma R sigma, a closed one leaves all of it |
| Estimator.EstimateHeldIff | vertex/controllers/interface_lc.py:155-170 | the estimate stays exactly when a gate is shut or the step, the profile, the powers or the error is zero |
| Estimator.RSquared | vertex/controllers/interface_lc.py:121-127 | R is a reflection times A sqrt(p^2 + q^2): its square is A^2 (p^2 + q^2) times the identity |
| Deadbeat.ActiveStep | vertex/controllers/interface_lc.py:146-150 | unsaturated, on the active branch: sigma+ = (1 - h lambda) sigma + h R (S - S_hat) |
| Deadbeat.LamOnGrid | vertex/controllers/interface_lc.py:120-121 | with beta_c = 2, width 2h and a deadline of N periods, 1 - h lambda is (N-k-2)/(N-k) and then 0 |
| Deadbeat.ProductTelescopes | vertex/controllers/interface_lc.py:120-121 | the homogeneous product after n ticks is (N-n)(N-n-1)/(N(N-1)), and 0 at n = N - 1 |
| Deadbeat.ActiveAt | vertex/controllers/interface_lc.py:142-150 | a tick is active exactly before the deadline or without the terminal policy |
| Deadbeat.Deadbeat | vertex/controllers/interface_lc.py:101-171 | from tick N - 2 on each error is h R (S - S_hat) alone, whatever came before |
| Deadbeat.ClosedForm | vertex/controllers/interface_lc.py:130-171 | variation of constants up to tick N - 2, with weights (N-n)(N-n-1) |
| Deadbeat.Homogeneous | vertex/controllers/interface_lc.py:130-171 | with no parameter error the error is the initial one times the product |
| Deadbeat.TerminalStep | vertex/controllers/interface_lc.py:142-145 | past the deadline under the terminal policy the command is zero, the estimate is frozen and only the uncertainty moves the plant |
| Deadbeat.DriveBound | vertex/controllers/plant.py:85-92 | what remains is at most h times the uncertainty bound taken at the parameter error |
| Effort.OmegaLC | vertex/analysis/effort.py:51-77 | the loop fills one term per row and marks the rows of the terminal policy |
| Effort.FromData | vertex/analysis/effort.py:94-130 | the logged command where there is one, else the rebuilt rows, else a refusal |
| Effort.ClipsAgree | vertex/analysis/effort.py:129-130 | the array clip and the controller's branches agree exactly when the limit is nonnegative or the command exceeds it |
| Effort.RowRebuiltIff | vertex/analysis/effort.py:94-130 | row by row, the rebuilt command is the applied one if and only if the limit is nonnegative or both commands exceeded it |
| Effort.ReconstructionExact | vertex/analysis/effort.py:80-130 | for every admitted limit, arm, neighbour data and length, reconstruction from the log equals the logged command on rows 1..N-1 |
| Effort.LogRow | vertex/analysis/effort.py:10-14 | row k of the log is the state the step of row k + 1 started from, and that step's clock is (k+1) h |
| Crc.OfIsRemainder | vertex/serial/proto.py:122-132 | the checksum is the remainder of the message polynomial modulo the generator, started from ones |
| Crc.Crc16 | vertex/serial/proto.py:122-132 | the shifting loop over integers computes that checksum |
| Crc.CheckValue | vertex/serial/proto.py:122-132 | the checksum of "123456789" is 0x29B1 |
| Crc.CrcOfDifference | vertex/serial/proto.py:122-132 | the checksums of two equally long payloads differ by the unconditioned remainder of their difference |
| Crc.RunLinear | vertex/serial/proto.py:128-131 | the register is linear over GF(2) |
| Crc.RunInjective | vertex/serial/proto.py:128-131 | feeding a fixed message is injective in the register |
| Crc.RunParity | vertex/serial/proto.py:128-131 | the register keeps the parity of what was fed |
| Crc.UndetectedIff | vertex/serial/proto.py:239-251 | damage goes undetected exactly when its remainder equals the damage to the checksum |
| Crc.OddFlipsDetected | vertex/serial/proto.py:239-251 | any odd number of flipped bits across payload and checksum changes the verdict, at every length |
| Crc.BurstDetected | vertex/serial/proto.py:239-251 | any nonzero burst of at most 16 bits inside the payload is detected |
| Crc.AdjacentBytesDetected | vertex/serial/proto.py:239-251 | any nonzero change confined to two adjacent payload bytes is detected |
| Crc.BoundaryBurstPasses | vertex/serial/proto.py:135-140 | every payload, whatever its last byte b, has a twin ending in b xor 0x89 whose checksum differs from its own by 0xA1 in the low byte alone |
| Crc.BoundaryDamageIff | vertex/serial/proto.py:239-251 | damage confined to the last payload byte and the first checksum byte passes if and only if it is none, or 0x89 in the one and 0xA1 in the other |
| Crc.HighHalfZeroIff | vertex/serial/proto.py:122-132 | of the 256 remainders of one byte only those of 0 and of 0x89 have a zero high half, and that of 0x89 is 0x00A1 |
| Frames.BuildFrame | vertex/serial/proto.py:135-140 | refuses a payload over the limit, else: start byte, type, length low byte first, payload, and low byte first the checksum of everything between the start byte and itself |
| Frames.SealedIff | vertex/serial/proto.py:135-140 | those bytes are the printed frame and nothing else is |
| Frames.PingOnTheWire | vertex/serial/proto.py:135-140 | a ping is 7E 50 00 00 52 92 |
| Frames.ChunkingInvisible | vertex/serial/proto.py:194-200 | fragmentation of the stream changes neither the parser nor what it yields |
| Frames.FrameParsed | vertex/serial/proto.py:194-253 | from between frames a printed frame is yielded, alone and unchanged, and only the counters it should move do |
| Frames.StreamParsed | vertex/serial/proto.py:194-253 | frames separated by noise without the start byte are yielded exactly, in order |
| Frames.LastByteCompletes | vertex/serial/proto.py:202-253 | a frame is yielded by its last byte and not before |
| Frames.YieldedWasPrinted | vertex/serial/proto.py:202-253 | from any reachable state and on any bytes, the yielded frames are legal and their printed forms occur in the stream, disjoint and in order |
| Frames.FreshYieldedWasPrinted | vertex/serial/proto.py:202-253 | the same from power-up |
| Frames.YieldedWasSealed | vertex/serial/proto.py:202-253 | each yielded frame stands in the bytes received with its checksum over type, length and payload |
| Frames.WholeFrameIff | vertex/serial/proto.py:202-253 | bytes shaped like a frame of known type are yielded as that frame if their last two agree with the checksum of type, length and payload, and otherwise dropped and counted once |
| Frames.OddFlipsDropped | vertex/serial/proto.py:239-251 | with start byte and length intact and a known type, any odd number of flips across type, payload and checksum yields no frame and one crc error |
| Frames.BurstDropped | vertex/serial/proto.py:239-251 | so does any burst of at most 16 bits in what the checksum covers, the type included |
| Frames.AdjacentBytesDropped | vertex/serial/proto.py:239-251 | so does any change to two adjacent bytes of it |
| Frames.TypeDamageDropped | vertex/serial/proto.py:239-251 | a frame taken for one of any other known type is dropped |
| Frames.BoundaryDamageDroppedIff | vertex/serial/proto.py:202-253 | the same at the parser: the damaged frame is dropped and counted, or else yielded as if it had been sent |
| Frames.SofsBalance | vertex/serial/proto.py:183-253 | over every history of bytes and timeouts, accepted start bytes = frames + resyncs + timeouts + 1 if in a frame |
| Frames.FreshSofsBalance | vertex/serial/proto.py:183-253 | the same balance from power-up |
| Frames.ErrorsAreResyncs | vertex/serial/proto.py:213-251 | every length or checksum error is also a resync |
| Frames.BackWithin261 | vertex/serial/proto.py:202-253 | within 261 bytes the parser has been back between frames |
| Frames.BoundIsTight | vertex/serial/proto.py:202-253 | and 260 can be too few |
| Frames.ParsedAfterTimeout | vertex/serial/proto.py:183-192 | after an idle timeout the next intact frame is always parsed |
| Frames.FrameParser.constructor | vertex/serial/proto.py:167-176 | a new parser is between frames with all counters zero |
| Frames.FrameParser.Timeout | vertex/serial/proto.py:183-192 | abandons a partial frame and counts it, else does nothing |
| Frames.FrameParser.OneByte | vertex/serial/proto.py:202-253 | the seven states, byte by byte |
| Frames.FrameParser.Consume | vertex/serial/proto.py:194-200 | the whole input, frame by frame |
| StateCodec.EncodeState | vertex/serial/proto.py:510-525 | the payload, or a packing error exactly for an out-of-range field or a short list |
| StateCodec.DecodeState | vertex/serial/proto.py:528-565 | the report, or a protocol error |
| StateCodec.HeaderLayout | vertex/serial/proto.py:528-565 | for every payload accepted: the time is bytes 0-7 and state, vstate, vartheta and counter are bytes 8-23, little-endian and signed, and byte 24 is the length of every list |
| StateCodec.RecordLayout | vertex/serial/proto.py:545-553 | neighbour i is eight bytes: value, sequence number, signed strength, and flags with enabled in bit 0 and arrival in bit 1 |
| StateCodec.TailLayout | vertex/serial/proto.py:555-560 | the tail is nothing, the two second coordinates, or those and the two estimates, in that order |
| StateCodec.DecodeEncode | vertex/serial/proto.py:510-565 | what every packable report comes back as |
| StateCodec.RoundTripIff | vertex/serial/proto.py:510-565 | a packable report comes back unchanged exactly when it has at most 16 neighbours, full lists and one of the three legal tails |
| StateCodec.LayoutsUnambiguous | vertex/serial/proto.py:457-475 | reports of any of the three layouts with the same payload are the same report |
| StateCodec.DecodeThenEncode | vertex/serial/proto.py:528-565 | exactly the stated lengths are accepted, and printing the result gives the payload back exactly when its unused flag bits were clear |
| StateCodec.SurvivesTheLink | vertex/serial/proto.py:510-565 | every such report survives encoding, framing, parsing and decoding unchanged |
| SerialLink.DispatchedRun | vertex/serial/link.py:257-287 | over a run of frames: counters by kind, reports delivered in order, only the first reply kept while awaiting |
| SerialLink.RequestAnswered | vertex/serial/link.py:316-342 | over any reads and idle polls after it began, a request is answered by the first reply-type frame that completes then, whoever asked for it, and never by what was in the slot before; a closed slot does not change |
| SerialLink.SlotIsFirst | vertex/serial/link.py:245-287 | the same from any state of the slot |
| SerialLink.OwnReplyIff | vertex/serial/link.py:316-342 | a request's own reply answers it if and only if no other reply-type frame completes before it in the window |
| SerialLink.OwnReplyAnswers | vertex/serial/link.py:316-342 | a request made between frames is answered by its own reply after any reports and noise, in whatever pieces they are read |
| SerialLink.LateReplyAnswers | vertex/serial/link.py:316-342 | any reply frame read after its own request timed out and another began answers the other |
| SerialLink.SplitReplyAnswers | vertex/serial/link.py:316-342 | so does a reply of which all but the last byte was read before the request |
| SerialLink.FramesConserved | vertex/serial/link.py:245-287 | over every history frames_in = states + unsolicited + unknown + accepted replies = the parser's frames_ok |
| SerialLink.IdleThenParsed | vertex/serial/link.py:245-255 | after an idle reset the next intact frame is always parsed and dispatched |
| SerialLink.IdlePollIff | vertex/serial/link.py:245-255 | an idle poll abandons a partial frame if and only if the timeout has passed since bytes last arrived, and otherwise changes nothing |
| SerialLink.Port.constructor | vertex/serial/link.py:117-142 | a closed slot and zero counters |
| SerialLink.Port.DispatchFrame | vertex/serial/link.py:257-287 | one frame: report, reply or unknown |
| SerialLink.Port.PumpBytes | vertex/serial/link.py:245-255 | feeds and dispatches, or resets an idle partial frame |
| SerialLink.Port.BeginRequest | vertex/serial/link.py:319-322 | an old reply is dropped before awaiting |
| SerialLink.Port.EndRequest | vertex/serial/link.py:323-334 | the reply, if any, and no longer awaiting |
| Pcg32.FullPeriod | vertex/pcg32.py:22-41 | for every odd increment the state returns to where it was exactly after multiples of 2^64 draws |
| Pcg32.StatesDistinct | vertex/pcg32.py:39-41 | 2^64 consecutive states are all different |
| Pcg32.OutputRotates | vertex/pcg32.py:42-44 | the output is a 32-bit rotation to the right, rotation 0 included |
| Pcg32.OutputBits | vertex/pcg32.py:39-44 | output bit i is the exclusive or of state bits 45 + k and 27 + k, where k is i plus the top five bits of the state, modulo 32 |
| Pcg32.DriftValuation | vertex/pcg32.py:39-41 | how far n draws drift is divisible by exactly as many powers of two as n |
| Pcg32.Generator.constructor | vertex/pcg32.py:32-37 | seeding as the two-step constructor does, with an odd increment |
| Pcg32.Generator.NextU32 | vertex/pcg32.py:39-44 | the permuted old state, and one advance |
| Pcg32.Generator.NextUniform | vertex/pcg32.py:46-48 | a multiple of 2^-24 in [0, 1) |
| Pcg32.Draw | vertex/pcg32.py:46-48 | n draws are the n uniforms of consecutive states |
| VirtualTime.AdvanceExact | vertex/clock.py:103-114 | a jump moves time strictly forward, pops exactly the sleepers due at the new time in the order they went to sleep, and leaves only later ones |
| VirtualTime.SleepValid | vertex/clock.py:76-82 | a sleep keeps the waiters ordered, distinct and in the future |
| VirtualTime.VirtualClock.constructor | vertex/clock.py:64-67 | nothing parked at the start time |
| VirtualTime.VirtualClock.SleepFor | vertex/clock.py:76-82 | parks at now + seconds, or only yields when the delay is not positive |
| VirtualTime.VirtualClock.Jump | vertex/clock.py:103-114 | the popping loop performs one jump and wakes who is not already done |
| VirtualTime.VirtualClock.CancelAll | vertex/clock.py:116-121 | wakes everyone without moving time |
| SimDriver.WakesExactly | vertex/clock.py:76-114 | over every history a sleep has woken its sleeper if and only if its deadline has come and it was not cancelled; once, exactly then, ties in sleep order |
| SimDriver.QuiescenceExact | vertex/sim/runner.py:50-56 | the test passes exactly when the live tasks not parked are no more than the cancelled sleeps still in the heap |
| SimDriver.QuiescentIff | vertex/sim/runner.py:50-56 | while no cancelled sleep is in the heap it passes exactly when every live task is parked |
| SimDriver.RuleKeptIff | vertex/sim/runner.py:6-8 | the documented rule (no advance while a live task is not parked) is kept by the test in a world if and only if no live task is loose there or more are than cancelled sleeps are left |
| SimDriver.StaleFools | vertex/sim/runner.py:50-56 | any heap with a cancelled sleep in it, whatever else it holds, has tasks the test passes over |
| SimDriver.StaleSleepFoolsTheTest | vertex/sim/runner.py:50-56 | one cancelled sleep is enough for the clock to move past a runnable task, in a reachable world |
| SimDriver.NextConsistent | vertex/clock.py:76-82 | whatever a task does, heap and tasks stay in step |
| SimDriver.JumpConsistent | vertex/clock.py:103-114 | so they do over a jump |
| SimDriver.EventLoop.ParkAll | vertex/sim/runner.py:41-57 | yields until every live task looks parked, no primary is left, or the spins run out; what happened is a history without advances |
| SimDriver.EventLoop.Drive | vertex/sim/runner.py:106-137 | what happened is a history whose advances all pass the test, each strictly later and none past the horizon; at each the loose tasks are no more than the cancelled sleeps in the heap, so every live task is parked where there are none; ends at or before the later of start and horizon, within max_steps, with exactly one outcome |
| SimDriver.EventLoop.AdvanceClock | vertex/clock.py:103-114 | one jump, and the woken tasks become runnable |
| PeriodicLoop.DriftFree | vertex/agent/agent.py:200-220 | every deadline is on the first one's grid, within a period of the iteration that left it; iterations never run early; overruns counts exactly the iterations that skip |
| PeriodicLoop.SlotsIncrease | vertex/agent/agent.py:200-220 | no slot runs twice and slots run in order |
| PeriodicLoop.FollowingWithin | vertex/agent/agent.py:215-220 | however late, the next deadline is at most a period ahead, and a slot is skipped exactly when the iteration was more than a period late |
| PeriodicLoop.VirtualExact | vertex/agent/agent.py:200-220 | where no sleep returns late and no body takes time, iteration k runs exactly at t0 + k p, never late, skipping nothing |
| PeriodicLoop.LoopTiming.RecordError | vertex/agent/agent.py:55-63 | one iteration's error in every counter |
| PeriodicLoop.RecordIs | vertex/agent/agent.py:55-66 | over any run the record holds the number of late iterations and of overruns, the greatest lateness and their sum |
| PeriodicLoop.RunPeriodic | vertex/agent/agent.py:200-220 | the loop against a clock: its deadlines, run times and timing record |
| ClockedLoop.RunsExactly | vertex/sim/runner.py:41-57 | under the driver, while no advance is made with a cancelled sleep in the heap, body k of a periodic task runs exactly at t0 + k p and none is missing, whatever the other tasks do: zero lag and zero work are derived |
| ClockedLoop.TimelyIff | vertex/agent/agent.py:200-220 | over any history, driven or not, a periodic task is exactly on time throughout if and only if the clock never moves while it has a turn to take |
| ClockedLoop.DrivenNotPassedOver | vertex/sim/runner.py:50-56 | a driver that never advances with a cancelled sleep in the heap never passes over a task |
| ClockedLoop.JumpOfSleeper | vertex/clock.py:103-114 | one jump either leaves a sleeper asleep and its deadline ahead, or wakes it exactly at its deadline |
| ClockedLoop.StaleSleepDelaysTheLoop | vertex/sim/runner.py:50-56 | the condition cannot be dropped: with one cancelled sleep left, a loop of period 1 started at 0 first runs at 100, every advance having passed the test |
| PeriodicLoop.CadenceExact | vertex/agent/agent.py:254-274 | n ticks send exactly n / every packets, each at the end of its group, numbered modulo 2^16 |
| PeriodicLoop.Publisher.ControlStep | vertex/agent/agent.py:254-262 | a tick publishes or not, and counts |
| PeriodicLoop.Publisher.PublishStep | vertex/agent/agent.py:272-280 | the next sequence number, modulo 2^16 |
| AgentService.StartedIsBuilt | vertex/agent/service.py:376-485 | an idle agent that is configured and then started runs the controller built for it, unstepped, with the given epoch, and has an open sidecar and rows file for the run; what an earlier run of that name wrote at its end is still there |
| AgentService.RunningIsKept | vertex/agent/service.py:376-420 | a running agent keeps its controller's state through a configure and refuses a start; a served configure puts the new parameters and assignment in effect, a refused or failing one changes neither |
| AgentService.IdleConfigure | vertex/agent/service.py:376-414 | an idle agent takes the assignment even when its build fails, and then keeps the controller it had |
| AgentService.StartLeaves | vertex/agent/service.py:416-485 | an accepted start opens sidecar and rows before anything can fail and touches no other file; a failing one leaves the agent idle |
| AgentService.StopLeaves | vertex/agent/service.py:597-628 | a stop closes the three artefacts of the run and touches no other; one that cannot finalise touches none |
| AgentService.Service.OnConfigure | vertex/agent/service.py:376-414 | refusal of the wrong kind, live update or new build, and what a failing build leaves behind |
| AgentService.Service.OnStart | vertex/agent/service.py:416-485 | refused when unconfigured or running; else epoch, open log, and the loops or the relay |
| AgentService.Service.OnStop | vertex/agent/service.py:597-628 | nothing when idle; else halted, its artefacts finalised and its run name cleared |
| AgentService.Service.OnFetch | vertex/agent/service.py:635-657 | the artefact asked for of this node and run, if there is one |
| Orchestration.StartOnlyAfterBarrier | vertex/hub/runner.py:338-356 | no agent is sent or accepts a start unless every agent acknowledged this run's configure; who accepts one has a controller built in this run, unstepped, for this run's assignment, with the one epoch |
| Orchestration.BarrierFailsAll | vertex/hub/runner.py:342-348 | when the barrier fails nobody was started, no outcome is ok and neither is the report |
| Orchestration.OkMeansCollected | vertex/hub/runner.py:106-127 | an ok report of a finished run: a nonempty fleet, every node started and stopped, the sidecar and the rows of each are this run's and were fetched after the log was closed |
| Orchestration.ParametersOfRecord | vertex/hub/runner.py:229-261 | from the end of the start phase to the end of the run a node without errors runs exactly the assignment the hub has on record, events included, unless the reply to one of its events was lost |
| Orchestration.EventCurrentIff | vertex/hub/runner.py:241-261 | an event leaves the record wrong if and only if its reply was lost, the agent accepted it and it was a change |
| Orchestration.EffectiveMoves | vertex/hub/runner.py:329-406 | whatever fails, each call due and each phase end leaves strictly less to do, nothing else leaves more, and until the run is over one of them is due |
| Orchestration.RunsEnd | vertex/hub/runner.py:329-406 | so over any history a run makes at most the calls and phase ends it began with, 6 n + 6 for n nodes |
| Orchestration.SmoothRunOk | vertex/hub/runner.py:329-406 | with nothing lost and no handler failing, on agents of the assigned kinds left in any state by earlier runs, no run is aborted, none records an error, and every finished one reports ok |
| Orchestration.NextInv | vertex/hub/runner.py:210-302 | every call, event, phase end or agent step, with any lost request, lost reply or failing handler, keeps every node in its stage |
| Orchestration.ExperimentRunner.constructor | vertex/hub/runner.py:315-327 | a fresh outcome per node |
| Orchestration.ExperimentRunner.ClearStale | vertex/hub/runner.py:264-275 | records nothing, whatever came back |
| Orchestration.ExperimentRunner.ConfigureOne | vertex/hub/runner.py:210-216 | acknowledged or an error |
| Orchestration.ExperimentRunner.StartOne | vertex/hub/runner.py:218-227 | acknowledged or an error |
| Orchestration.ExperimentRunner.StopOne | vertex/hub/runner.py:277-283 | acknowledged or an error |
| Orchestration.ExperimentRunner.CollectOne | vertex/hub/runner.py:285-302 | both artefacts are tried, each kept or an error |
| Orchestration.ExperimentRunner.ApplyEvent | vertex/hub/runner.py:241-261 | the assignment of record changes only when the agent took the change |
| Orchestration.ExperimentRunner.EndPhase | vertex/hub/runner.py:335-406 | phase to phase, and the barrier |
| Orchestration.ExperimentRunner.MarkNotStarted | vertex/hub/runner.py:342-348 | every configured node of a failed barrier gets an error |
| RunLog.NamesMatchWidthIff | vertex/agent/runlog.py:84-98 | there is one name per column exactly when there are no neighbours or at most two coordinates |
| RunLog.RowWidth | vertex/agent/runlog.py:289-302 | an appended row has exactly the declared number of columns |
| RunLog.UnpackPack | vertex/agent/runlog.py:304-305 | a row's bytes unpack to the row, whatever follows them |
| RunLog.RecoverPrefix | vertex/agent/runlog.py:406-414 | from any byte prefix of the file, recovery returns exactly the rows that survived whole |
| RunLog.Log.constructor | vertex/agent/runlog.py:168-193 | an empty log, nothing waiting and nothing inherited |
| RunLog.Log.Start | vertex/agent/runlog.py:227-243 | an empty open file and a count of zero; rows an earlier run left in the buffer stay there, to be written first; after a close there are none |
| RunLog.Log.Append | vertex/agent/runlog.py:251-312 | refusals in order, else one more row; file rows and buffered rows together are always the appended rows; the file is written exactly when a batch is full |
| RunLog.Log.Flush | vertex/agent/runlog.py:314-330 | the buffer goes to the file; nothing is lost, nothing waits |
| RunLog.Log.Close | vertex/agent/runlog.py:332-337 | after closing the file holds every row and nothing waits |
| RunLog.Log.BuildRow | vertex/agent/runlog.py:289-302 | the nested loops build the row |
| Load.LoadNode | vertex/analysis/load.py:223-229 | the nested loops put under each name what the rows hold for it, for any names, distinct or not |
| Load.SeriesIsColumn | vertex/analysis/load.py:224-229 | with distinct names each name's series is its column |
| Load.NeighborColumns | vertex/agent/runlog.py:195-207 | under each of a neighbour's names, exactly the series appended for that coordinate, flag, sequence number or strength |
| Load.HeadColumns | vertex/agent/runlog.py:195-197 | under the clocks', timing and channel names, exactly the series appended |
| Load.RecoveredRows | vertex/agent/runlog.py:406-414 | a closed log is recovered whole, a torn one up to its last whole record |
| Load.LoadedFromPrefix | vertex/analysis/load.py:208-235 | from the closed file or any prefix of it every column, of clocks, timing, channels or a neighbour, holds the values of exactly the samples that survived whole |
| Load.LoadedFromLog | vertex/analysis/load.py:208-235 | the same for the file of a log object at any moment, after any appends and flushes, cut anywhere; uncut, it is short by none once closed, and before by fewer rows than a batch unless rows of an earlier run still wait |
| ScalarLaw.FiniteTimeAdaptive.constructor | vertex/controllers/finite_time_adaptive.py:42-69 | the initial integrator state |
| ScalarLaw.FiniteTimeAdaptive.ConsensusTerm | vertex/controllers/finite_time_adaptive.py:95-115 | the loop sums the coupling over usable neighbours |
| ScalarLaw.FiniteTimeAdaptive.Update | vertex/controllers/finite_time_adaptive.py:122-144 | plant, virtual state and gain move together, the disturbance touching only the plant |
| ScalarLaw.CouplingOdd | vertex/controllers/finite_time_adaptive.py:113-114 | the coupling is odd, whatever the power |
| ScalarLaw.TermsCancel | vertex/controllers/finite_time_adaptive.py:95-115 | over a symmetric usable graph the consensus terms sum to zero |
| ScalarLaw.DrawnToNeighbors | vertex/controllers/finite_time_adaptive.py:95-115 | a law whose usable neighbours are all on one side of it is drawn to that side |
| ScalarLaw.TermsDissipate | vertex/controllers/finite_time_adaptive.py:95-115 | over a symmetric usable graph sum z_i term_i is minus half of what all pairs lose, each its distance times the power of it, so never positive |
| Tracking.ErrorStep | vertex/controllers/finite_time_adaptive.py:134-142 | x - z moves against its own sign by dt vartheta, and by dt nu; the consensus term cancels |
| Tracking.GainStep | vertex/controllers/finite_time_adaptive.py:134-142 | vartheta moves by exactly dt eta when x and z are more than delta apart and not at all otherwise |
| Tracking.ErrorMagnitude | vertex/controllers/finite_time_adaptive.py:134-142 | in magnitude, sigma+ <= max(sigma - dt vartheta, dt vartheta) + dt nu |
| Tracking.AbsorbsIff | vertex/controllers/finite_time_adaptive.py:134-142 | the dead-band keeps the error under every disturbance up to N if and only if N <= vartheta and dt (vartheta + N) <= delta |
| Tracking.RisesBounded | vertex/controllers/finite_time_adaptive.py:134-142 | over a run of any length under disturbances up to N, with a dead-band wide enough for the last gain: at most n1 + n2 ticks are outside the band or raise the gain, and the error never exceeds the band by more than an explicit budget |
| Tracking.ExplicitRises | vertex/controllers/finite_time_adaptive.py:134-142 | n1 and n2 written out from the start, the period, eta and N |
| Tracking.Settles | vertex/controllers/finite_time_adaptive.py:134-142 | the error ends within the dead-band for good and the gain stops |
| Tracking.ChattersForEver | vertex/controllers/finite_time_adaptive.py:134-142 | without that condition, whatever the threshold: undisturbed, a gain with dt vartheta = 2 sigma throws the error across the band for ever, the gain rises at every tick and the error grows without bound |
| ScalarLaw.TickConserves | vertex/controllers/finite_time_adaptive.py:122-144 | with exact exchange, a symmetric usable-edge multiset and a common gain and period, a tick preserves the sum of z |
| ScalarLaw.RunConserves | vertex/controllers/finite_time_adaptive.py:122-144 | so does every run, with any disturbances and links that come and go symmetrically |
| Ring.Generate | vertex/topology/generators.py:22-50 | the first complaint in the order checked, or every node with its neighbours in declared order |
| Ring.RefusedIff | vertex/topology/generators.py:10-37 | a ring is generated exactly for distinct ids or n >= 1, k >= 1 and 2k < n, or n >= 2 when directed; each refusal has its own reason |
| Ring.NbrsOf | vertex/topology/generators.py:45-49 | the loop over offsets -k..-1, 1..k, or the predecessor alone |
| Ring.Regular | vertex/topology/generators.py:38-49 | exactly 2k neighbours, all different, never oneself |
| Ring.ReadsInOrder | vertex/topology/generators.py:45-49 | the reads are the k behind, farthest first, then the k ahead, nearest first |
| Ring.ReadsIff | vertex/topology/generators.py:48-49 | i reads j exactly when they are within k around the circle |
| Ring.Symmetric | vertex/topology/generators.py:48-49 | reading is mutual |
| Ring.StronglyConnected | vertex/topology/validate.py:137-146 | in both forms a chain of at most n - 1 reads leads from any agent to any other |
| Ring.OnePinReachesAll | vertex/topology/validate.py:137-146 | one pin reaches every observer of a ring within n - 1 reads, as the convergence theorem needs |

## Left out

- Floating-point rounding, NaN, infinities and signed zero; with them the finite-value
  filters, the watchdog's "virtual" cause and the disturbance generator.
- The internals of `heapq`: waiters are kept in the order the heap yields them, which the
  (deadline, counter) key makes unique.
- asyncio itself: tasks are an arbitrary environment that may sleep, finish, spawn, block
  and be cancelled between two looks of the driver; the cancellation and error collection
  after its loop are not part of this model.
- Sockets, serial ports, threads, radios, YAML, JSON and pydantic; a request or dispatch is
  one step, and an ERR reply is returned rather than raised.
- The packet codec: a packet is (id, sequence number, quantized values), with unbounded
  scaled integers, and link statistics are not kept.
- A service process that crashes and restarts during a run, and commands that arrive after
  their timeout; a command is served in its phase or not at all.
- `run_repeated` with events in the manifest: an applied event stays in the assignments.
- CSV and JSONL rows, the columnar file written at finalize, scaled-integer logs of relayed
  nodes, and `NodeRun`'s derived properties.
- Live parameter changes (`set_params`) and disabled agents inside a controller run.
- The generators for lines, clusters, stars and complete graphs, and the graph report.
- Fixed-width command encoders, ADV reports and statistics frames: short codecs with no
  invariant of their own.
- RunLog.Log.Append: requires cells to be 64-bit words, which every float64 is.
- DeadZone.Settles: assumes every command within the saturation limit, as the theory does;
  a saturated tick adds h times the excess, by `Microgrid.ErrorDynamics`.
- Tracking.RisesBounded: a dead-band as wide as it asks is enough for every start and
  disturbance; in a narrower one a start may never settle (`Tracking.ChattersForEver`), and
  which starts do is not stated.
- PeriodicLoop.RunPeriodic: runs a given number of iterations; the loop without a limit is
  every such prefix.
