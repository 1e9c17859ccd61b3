# afdrl coordinator core, in Dafny

This project models two sequential pieces of the afdrl federated-learning
simulator:

1. **The federation scheduler's client-job table and message dispatch**
   (`afdrl/schedule.cpp`). Each simulated client owns a `ClientSchedule`. It
   holds a current job `(start_time, end_time, steps, status)`, with status
   `PENDING` or `WAITING`, and a private seeded generator. `advance(t)` draws
   the next job. The coordinator's `switch` handles one inbound message code:
   - a schedule request grants the lowest-index pending job, or replies with
     a sleep directive;
   - a global-model request replies with the serialised model and both
     counters;
   - every other code raises.
2. **The command-line parser** (`afdrl/args.h`). It scans the tokens left to
   right. Switches set a field. Value flags consume the next token. An
   unknown token aborts the program.

Modules:
- `Wrappers` (`wrappers.dfy`): `Option` and `Result`.
- `Messages` (`messages.dfy`): message codes and reply tokens. A reply is a
  sequence of `Int(v)` and `Buf(bytes)` tokens, mirroring `sendInt` and
  `sendBuffer`.
- `ScheduleStream` (`schedule_stream.dfy`): jobs, the generator abstraction,
  `Advance`, the constructor, and `Replay` (advancing at a sequence of times).
- `Coordinator` (`coordinator.dfy`): the job table, `Grant`, `Dispatch`, and
  `Serve`, which is the receive loop over a finite inbox.
- `CommandLine` (`command_line.dfy`): `Args`, its defaults and the flag table.
  - `Scan` follows the source's index loop, and `Parse` runs it on a full
    `argv`.
  - A reference reading, `Lex` then `ApplyAll`, first turns the options into
    settings and then folds them over the fields.
  - `Parse` is proved equal to that reference reading.

Modelling choices:
- **Random draws.** The Mersenne Twister engine is a parameter
  `gen: (seed, index) -> word`. A closed-range uniform draw consumes the next
  word and folds it into `[lo, hi]`. Every draw is therefore in range. Draws
  are taken in the order gap, length, steps, and the same seed gives the same
  jobs. The seed is kept modulo 2^32, as the engine does.
- **Failed advance.** A refused `advance` returns no new schedule. The caller
  keeps the schedule it had, so nothing changes, as in the source, where the
  throw comes before any assignment.
- **Constructor.** The end time that `advance(0)` reads in the constructor is
  uninitialised in the source. Here it is taken to be 0, so the first advance
  always succeeds.
- **Exceptions in handlers.** When a handler throws, the model returns an
  `Aborted` step. It records what was sent before the throw and the state at
  that moment. The schedule-request handler grants or sleeps, and only then
  raises "Not implemented". So its reply, and its `WAITING` mark, are visible
  in the `Aborted` step.
- **Message codes.** `MSG_SLEEP` is used by the coordinator but never declared
  in `afdrl/messages.h`, so the model gives it the fresh code 6.
  `MSG_GET_GLOBAL_MODEL` and `MSG_GLOBAL_MODEL` are both 0, as declared.
- **Argument parser.**
  - `std::stoi` and `std::stof` are abstract partial conversions. `None` means
    the conversion throws.
  - The three float fields are kept as 32-bit patterns. The defaults are the
    single-precision roundings of 0.0001, 0.99 and 1.0.
  - The flag table is a map from spelling to flag. All spellings are distinct,
    so this is the same as the source's if-else chain.
  - When a value flag is the last token, the source reads `argv[argc]`. That
    is a null pointer, and building a `std::string` (or calling `std::stoi`
    or `std::stof`) from it is undefined behaviour. `Parse` rules this input
    out with its precondition (`ValuesPresent`).

What the code computes, as the model has it:
- A job starts at `t + gap` (afdrl/schedule.cpp:105) and ends at
  `start + length` (afdrl/schedule.cpp:106).
- The step budget is drawn uniformly from `[minsteps, maxsteps]`
  (afdrl/schedule.cpp:109).
- A job is only ever `PENDING` or `WAITING` (afdrl/schedule.cpp:86-89).
- A schedule grant replies with index, start, end and steps
  (afdrl/schedule.cpp:198-210).
- A global-model reply carries the model buffer and the two counters
  (afdrl/schedule.cpp:244-254).
- The update handler raises "Not implemented" (afdrl/schedule.cpp:235-238).

`FixedBoundsScenario` works through the first two points on a concrete case.
The usage text lists `--log-file` and `--results-file`, but the parser only
accepts `--log` and `--results`. `UsageSpellingsRejected` records this.

## Model

| member | source | states |
|---|---|---|
| ScheduleStream.Seeded | afdrl/schedule.cpp:81 | seeding keeps the seed's residue modulo 2^32 and starts the draw count at zero |
| ScheduleStream.Uniform | afdrl/schedule.cpp:76-78 | a closed-range uniform draw always lies in `[lo, hi]` |
| ScheduleStream.Draw | afdrl/schedule.cpp:105-109 | one draw lies in its range and consumes exactly one word of the same seeded stream |
| ScheduleStream.Advance | afdrl/schedule.cpp:99-113 | fails exactly when `t < end_time`, with that error; on success status is `PENDING`, `t+minspace <= start <= t+maxspace`, `minlen <= end-start <= maxlen`, `minsteps <= steps <= maxsteps`, bounds kept, three draws consumed |
| ScheduleStream.NewSchedule | afdrl/schedule.cpp:75-84 | construction seeds the generator and advances at 0: a pending job within the bounds drawn at time 0, three draws consumed |
| ScheduleStream.Replay | afdrl/schedule.cpp:99-113 | a successful run of advances yields one pending in-bounds job per time, each time at or after the previous job's end, with draw count growing by three per advance |
| ScheduleStream.DrawOrder | afdrl/schedule.cpp:105-109 | the gap, length and steps come from three consecutive stream words, in that order |
| ScheduleStream.ReplayDrawPositions | afdrl/schedule.cpp:105-109 | over a whole run, job `k` takes its gap, length and steps from stream positions `drawn+3k`, `drawn+3k+1`, `drawn+3k+2`, in that order |
| ScheduleStream.AdvanceNeverOverlaps | afdrl/schedule.cpp:101-105 | with `minspace >= 0`, a new job starts no earlier than the previous job ended |
| ScheduleStream.ReplayNeverOverlaps | afdrl/schedule.cpp:101-106 | with `minspace, minlen >= 0`, every job of a run is a window `start <= end` after the initial job, and each job ends before any later one starts |
| ScheduleStream.ReplayIgnoresCurrentStatus | afdrl/schedule.cpp:99-113 | schedules agreeing on bounds, generator and current end time produce identical runs, whatever their status |
| ScheduleStream.SameSeedSameJobs | afdrl/schedule.cpp:79-84 | two schedules built with the same bounds and seeds equal modulo 2^32, with any statuses since, produce identical job sequences at the same times |
| ScheduleStream.FixedBoundsScenario | afdrl/schedule.cpp:105-106 | with fixed gap 0, length 5 and 50 steps the first job is `[0,5)`; advancing at 5 gives `[5,10)`; advancing at 4 is refused |
| Coordinator.FirstPending | afdrl/schedule.cpp:190-192 | the scan returns the lowest pending index at or above its start, or reports that none is pending |
| Coordinator.Grant | afdrl/schedule.cpp:186-231 | with a pending job, the first pending index `i` alone becomes `WAITING`, nothing else changes, the reply is `[MSG_SCHEDULE, i, start, end, steps]` and the pending count drops by one; with none pending, table unchanged and reply `[MSG_SLEEP]` |
| Coordinator.PendingCountAfterGrant | afdrl/schedule.cpp:215-216 | marking one pending job waiting lowers the pending count by exactly one |
| Coordinator.PendingCountZeroIff | afdrl/schedule.cpp:189-224 | the pending count is zero exactly when no job is pending (the source's "not found") |
| Coordinator.GrantsExhaustPending | afdrl/schedule.cpp:186-231 | after as many grants as there were pending jobs, none is pending and the next request is told to sleep |
| Coordinator.Dispatch | afdrl/schedule.cpp:183-263 | only `MSG_GET_GLOBAL_MODEL` replies normally, with `[MSG_GLOBAL_MODEL, Buf(model), updates, trajectories]` and no state change; a schedule request performs the grant then fails as not implemented; an update request fails as not implemented with nothing sent; any other code fails as unknown |
| Coordinator.Serve | afdrl/schedule.cpp:171-264 | the loop keeps running exactly while every message is a global-model request, each answered identically with the state unchanged; otherwise it halts at the first other code with that message's partial reply and fault |
| Coordinator.InitialTableOnlySleeps | afdrl/schedule.cpp:163-233 | the table the loop starts with is empty, so a schedule request sends only `[MSG_SLEEP]` before failing |
| CommandLine.Parse | afdrl/args.h:13-74 | its body is `Scan`, the source's index loop, run from index 1 over the defaults; when no value flag is left without its value, that scan equals the reference reading (tokenise, then apply to the defaults) and never reports a missing value |
| CommandLine.ScanAgreesWithInterpret | afdrl/args.h:15-73 | from any index, the source's scan and the reference reading give the same result |
| CommandLine.ApplyAllLastInt | afdrl/args.h:15-73 | an integer field holds its last value among the settings, or its earlier value when never set |
| CommandLine.ApplyAllLastText | afdrl/args.h:15-73 | a text field holds its last value among the settings, or its earlier value when never set |
| CommandLine.ApplyAllLastFloat | afdrl/args.h:15-73 | a float field holds its last value among the settings, or its earlier value when never set |
| CommandLine.ApplyAllHelp | afdrl/args.h:17-18 | help is on after the settings exactly when it was on or a help switch occurs |
| CommandLine.ApplyAllDisplayTest | afdrl/args.h:35-36 | test display is on after the settings exactly when it was on or its switch occurs |
| CommandLine.ApplyAllDebug | afdrl/args.h:61-62 | debug is 1 after the settings when its switch occurs, unchanged otherwise |
| CommandLine.DefaultsWithoutOptions | afdrl/args.h:161-192 | with no tokens after the program name the parse succeeds with every declared default (`num_clients = 4`, `num_steps = 10000`, `seed = 0`, `help = false`, ...) |
| CommandLine.SwitchesConsumeNoValue | afdrl/args.h:17-62 | `-h`/`--help`, `-d`/`--display-test` and `--debug` set `help`, `display_test`, `debug = 1` and the scan continues at the very next token |
| CommandLine.ValueFlagsConsumeNextToken | afdrl/args.h:19-65 | a text, integer or float flag stores exactly the next token (converted) in its own field, and the scan resumes two tokens later |
| CommandLine.ValueFlagExamples | afdrl/args.h:43-48 | `-c 8 --min-offline-time 3` yields the defaults with `num_clients = 8` and `min_offline_time = 3` |
| CommandLine.ParseLastOccurrenceWins | afdrl/args.h:15-73 | in a successful parse every value field holds its flag's last occurrence, or its default when the flag never occurs |
| CommandLine.UnknownArgumentFails | afdrl/args.h:68-72 | an unknown token after any well-formed options makes the parse fail with that token |
| CommandLine.InvalidIntegerFails | afdrl/args.h:23-60 | an integer flag whose value the conversion rejects makes the parse fail, after any well-formed options |
| CommandLine.NonNumericSeedFails | afdrl/args.h:37-38 | `-s abc` fails when `abc` is not a number |
| CommandLine.ModelFlagIsIgnored | afdrl/args.h:66-67 | inserting `--model` after well-formed options changes neither the precondition nor the result: it consumes no value |
| CommandLine.ModelValueRejected | afdrl/args.h:66-72 | the token after `--model` is read as a flag, so `--model model.pt` fails on `model.pt` |
| CommandLine.UsageSpellingsRejected | afdrl/args.h:19-22 | `--log-file` and `--results-file`, which the usage text advertises, are rejected as unknown arguments |

## Left out

- ScheduleStream.Advance: start and end times are computed over unbounded integers. The source's 32-bit `int` sums can overflow, which is undefined behaviour, for extreme bounds or times.
- ScheduleStream.Uniform: a draw is one word folded by a remainder. The library's actual mapping, which may reject and redraw words, is not modelled. Only the range, the draw order and determinism are claimed.
- Mersenne Twister itself: its output is the `gen` parameter.
- The MPI transport (`recvInt`, `recvBuffer`, `sendInt`, `sendBuffer`) and the requesting rank: replies are token sequences returned to the caller.
- The interrupt handler `sigint_handler`: it is an asynchronous signal handler doing MPI sends.
- Console debug output.
- `ClientStatus` and `ClientStatusGenerator`: unused, and the generator's constructor has no definition.
- The global model: torch serialisation and weighted `add` are not modelled. The model is an opaque byte sequence.
- The per-client models, the environment, agents, training and testing workers, logging, and process bootstrap: they are outside this core.
- The protocol seen from the workers' side is not checked against the coordinator's replies.
- CommandLine.Parse: a value flag in the last position is excluded by the precondition rather than modelled. The source then builds a string from the null pointer `argv[argc]`, which is undefined behaviour.
- `std::stoi` and `std::stof`: their parsing rules are not modelled. Both are abstract partial conversions, and integers are limited to the 32-bit range.
- Float arithmetic: float values are never interpreted.
- `usage()`: the help text and `exit(1)` become a `Failure` carrying the offending token.
