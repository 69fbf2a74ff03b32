# kpm port-forward supervisor, modelled in Dafny

kpm keeps one `kubectl port-forward` child process alive for each entry of a
configuration profile. This project models three parts of it:

- the supervision rule for one process (proc/process.go);
- the fleet code in main.go: building each entry's `kubectl` arguments, creating
  and starting one process per entry, the startup barrier, status rendering,
  best-effort shutdown, the profile lookup and the profile-name completion list;
- indexing the parsed profiles by name, the default path and the default
  configuration (config/config.go).

Modules: `Base` (Option), `Process` (process.dfy), `Config` (config.dfy),
`Decimal` (how `fmt.Sprint` renders an integer, with a parser for the inverse)
and `Fleet` (fleet.dfy).

## How the supervision rule is modelled

`RestartableProcess` is a class with the Go struct's fields. `OnRestarted` is
modelled only as whether the callback is non-nil. `Start`, `Restart` and
`SendSigTerm` have value receivers in the source, and the model keeps that:
`Start` makes a fresh copy of the receiver. It resets the copy's `restartCount`
to 0 and its `running` flag to false, and records the new process handle in the
copy only. A `Session` is such a started copy, together with the state shared by
its two monitor goroutines:

- the one-slot success signal (a stdout send that has not been received yet);
- whether the stdout monitor has already read its one line.

Each monitor loop body is an event method (`OnStdoutLine`, `OnStderrLine`). Its
`ensures` ties the new state to a pure step function (`StdoutStep`,
`StderrStep`). The action for a stderr line is the pure `Decide`. It returns
`Restart`, `RetryAfter(30)` or `Terminate(givingUpLogged)`. The lemmas about
runs of events (`Run`, `Decisions`, `RestartedCalls`) state the retry budget and
the callback behaviour.

Because of the value receivers, these consequences hold in the code as written.
The model states them:

- every `Restart` starts a copy whose counter is 0 again, so the retry budget of
  eleven applies to each started copy, not to the entry;
- `OnRestarted` can fire only on a copy that retried a connection-refused line
  before its first stdout line (`RestartedCallNeedsRetry`);
- the caller's objects (`procs[i]` in main.go) never change after `Create`. So
  `printStatus` reports every entry as "Stopped" (`PortForwardProfile`), and
  `procs[i]` never gets a process handle, which `killAllPortMappings` needs
  (see `KillAllPortMappings` below).

Where kpm's intended design and its code disagree, the model follows the code:

- there is one retry interval of 30 seconds, not a 1 s / 30 s schedule with a
  threshold of 5;
- the counter resets on every start;
- nothing in proc/process.go calls a "started" callback.

All OS effects are parameters of the methods:

- `Spawn`: whether the pipes could be obtained, and the handle of the new child;
- `Option<OsError>`: the result of delivering a signal;
- a notification count: how many "started" notifications reach the barrier.

## Model

| member | source | states |
|---|---|---|
| `Process.ContainsIff` | proc/process.go:13 | The connection-failure test succeeds exactly when "connection refused" occurs at some position of the line, because the pattern is unanchored and searched. |
| `Process.DecideCases` | proc/process.go:90-111 | `Restart` iff a success was pending. `RetryAfter(30)` iff nothing was pending, the count is at most `MAX_RETRIES` and the line contains the failure text. `Terminate(true)` (giving up logged) iff nothing was pending and the count exceeds `MAX_RETRIES`. `Terminate(false)` in every other case. |
| `Process.StdoutStep` | proc/process.go:69-80 | The first stdout line records a pending success, sets `Running` and calls `OnRestarted` iff the count is positive and a callback is set. Later lines change nothing and call nothing. |
| `Process.StderrStep` | proc/process.go:84-114 | Every stderr line clears `Running` and consumes the pending success. A pending success always yields `Restart`, and only a pending success does. The count grows by exactly one when the line is retried and is otherwise unchanged. |
| `Process.RestartableProcess.Create` | main.go:125-129 | A created process has the given command, arguments and callback, no handle, count 0 and is not running. |
| `Process.RestartableProcess.SendSigTerm` | proc/process.go:28-36 | Signals the recorded handle and returns the OS's error unchanged. It needs a recorded handle. |
| `Process.RestartableProcess.Start` | proc/process.go:47-67 | Fails with the first pipe error and launches nothing. Otherwise it returns a fresh started copy: count 0, not running, nothing pending, the new handle recorded, same command and arguments. The receiver is unchanged. |
| `Process.RestartableProcess.Restart` | proc/process.go:38-45 | Sends SIGTERM to the recorded handle. A new started copy exists iff that signal succeeded and `Start` could obtain its pipes. A failed signal suspends the restart. |
| `Process.Session.OnStdoutLine` | proc/process.go:69-80 | The stdout monitor's step on the shared copy equals `StdoutStep`. |
| `Process.Session.OnStderrLine` | proc/process.go:84-114 | The stderr monitor's step equals `StderrStep`. Whatever the decision, the line sends one SIGTERM to the copy's recorded handle. A new started copy (count 0) results iff the decision is not `Terminate`, the signal succeeded and the pipes were obtained. |
| `Process.CountIsRetries` | proc/process.go:100-104 | Over any run of events, the copy's counter grows by exactly the number of `RetryAfter` decisions. |
| `Process.CountNeverDecreases` | proc/process.go:103 | Over any run of events, the counter never decreases. |
| `Process.RetryBudget` | proc/process.go:100-104 | A copy whose count is in 0..11 retries at most 11 − count more times, and its count stays in 0..11, so the int16 field cannot wrap. |
| `Process.StartedRetriesAtMostEleven` | proc/process.go:48 | A copy launched by `Start` retries at most `MAX_RETRIES` + 1 times, whatever lines it sees. |
| `Process.NoRetryPastBudget` | proc/process.go:100-110 | Once the count exceeds `MAX_RETRIES`, no later stderr line on that copy is retried. |
| `Process.RestartedCalledAtMostOnce` | proc/process.go:71-79 | `OnRestarted` is called at most once per started copy, and never after its first stdout line. |
| `Process.RestartedCallNeedsRetry` | proc/process.go:75-77 | If a run calls `OnRestarted`, the counter was already positive or the run retried before that call. |
| `Process.StartedCopyCallsOnRestartedOnlyAfterRetry` | proc/process.go:48-49 | A copy fresh from `Start` calls `OnRestarted` only if it retried a connection-refused line first. |
| `Config.IndexProfiles` | config/config.go:74-79 | The map built by the loop equals the list's profiles inserted in order (`ProfilesByName`). |
| `Config.ProfilesByNameKeys` | config/config.go:74-77 | The keys are exactly the names occurring in the profile list. |
| `Config.ProfilesByNameLastWins` | config/config.go:75-77 | A profile with no later namesake is the value stored under its name, so the last duplicate wins. |
| `Config.ProfilesByNameValues` | config/config.go:76 | Every stored profile comes from the list, and its `Name` equals its key. |
| `Config.ProfilesByNameSize` | config/config.go:74-79 | The map never has more entries than the list, and it is empty iff the list is empty. |
| `Config.ConfigPath` | config/config.go:37-42 | A non-empty path is used as given. An empty path resolves to `<home>/.kpm/config.json` (for a home without a trailing slash), and always ends in `.kpm/config.json`. |
| `Config.DefaultConfigIndexed` | config/config.go:83-100 | The default configuration indexes to the single profile "default", with namespace "default" and the one entry `svc/changeme`, service port 80, local port 8080. |
| `Decimal.IntToStringRoundTrip` | main.go:124 | A port rendered by `fmt.Sprint` parses back to the same integer and contains neither a colon nor a space. |
| `Fleet.PortPairRoundTrip` | main.go:124 | `<localPort>:<servicePort>` has no spaces and splits at its first colon back into the two ports, local port first. |
| `Fleet.ArgumentsRoundTrip` | main.go:123-124 | Every entry's argument list has five words, `-n <namespace> port-forward <service> <local>:<remote>`, and reads back as exactly that namespace and entry. |
| `Fleet.WaitGroup.Wait` | main.go:133 | The barrier releases iff at least as many notifications arrive as the counter held. It then uses up exactly that many. |
| `Fleet.StartAllPortMappings` | main.go:114-135 | Creates exactly one fresh process per entry, stored at the entry's index, with command "kubectl" and that entry's arguments. Starts each one. Entry i's started copy exists iff its pipes were obtained. The caller's processes keep count 0, not running and no handle. The method returns iff at least as many started notifications arrive as there are entries. |
| `Fleet.PrintStatus` | main.go:102-106 | One row per entry, pairing entry i with process i. The status is "Running" if that process is running and "Stopped" otherwise. |
| `Fleet.KillAllPortMappings` | main.go:108-112 | Every process is signalled, in order, whatever the OS answers for any of them. |
| `Fleet.CreatedProcessesHaveNoHandle` | main.go:130 | The processes `StartAllPortMappings` returns for a non-empty profile have no handle, so `KillAllPortMappings`' precondition fails for them: the shutdown at main.go:99 dereferences a nil handle. |
| `Fleet.PortForwardProfile` | main.go:80-92 | An unknown profile name gives `ProfileNotFound` and starts nothing. A known one starts one process per entry: entry i's started copy exists iff its pipes were obtained, runs `kubectl` with that entry's arguments and the new handle, and starts at count 0. Once the barrier releases, it reports every entry as "Stopped". |
| `Fleet.ProfileNames` | main.go:39-47 | The list has one name per profile: each element is a stored profile's name, and every stored profile's name occurs. When names equal keys, no name repeats. |
| `Fleet.DefaultProfileForwards` | main.go:31 | With the default `-p` value and the default configuration, the profile is found and forwards with `-n default port-forward svc/changeme 8080:80`. |

## Left out

- Goroutines and the unbuffered channel: the two monitors are events applied one at a time. In the code, the stdout monitor blocks on the send, so it sets `Running` and calls `OnRestarted` only after the stderr monitor has received the signal. The model applies both on the stdout event, and it does not model the races between the two monitors.
- Spawning processes, pipes and signals are parameters (`Spawn`, `Option<OsError>`). The source ignores the error of `cmd.Start()` and records the handle regardless; the model does the same and does not model a child that failed to launch.
- `time.Sleep`: recorded as the `RetryAfter(30)` decision; real time is not modelled.
- The regexp engine: replaced by a substring search, which is equivalent for this unanchored pattern.
- Logging: only whether "giving up" is logged (`Terminate(givingUpLogged)`) is modelled. The other info, error and debug messages are not.
- Process.RestartableProcess.SendSigTerm: the nil dereference of a missing handle is a precondition, not a modelled panic.
- Fleet.KillAllPortMappings: requires that every process has a handle, because the code dereferences it. As written, the caller's processes never get one, so this precondition cannot be met after a real start (`CreatedProcessesHaveNoHandle`). The model does not model the resulting panic.
- `proc.Create`, `logger.Init`, `logger.Debug` and the zero-argument `config.Read()` are not part of this model. `Create` is a constructor that sets the command, the arguments and the callback, with count 0 and not running.
- The "started" callback (`wg.Done`) has no field in `RestartableProcess`, and nothing shown calls it. The barrier therefore takes the number of notifications that reach it as an input.
- `sync.WaitGroup` is reduced to its counter.
- main.go's host-side code is not modelled: flag parsing, the completion library wiring, the `-h` and `-l` branches, `signal.Notify` and the wait for SIGTERM, and the `kubectl` lookup. These are I/O or foreign libraries.
- config/config.go's I/O is not modelled: `UserHomeDir`, `Stat`, `Mkdir`, `ReadFile`, `json.Unmarshal`, `WriteFile`, `json.Indent`, `log.Fatal` and `os.Exit`. The profile list is taken as already parsed, and the default configuration is modelled as its parsed contents, not its bytes.
- Config.ConfigPath: of `filepath.Join`'s cleaning, only trailing slashes of the home directory are modelled; `.`, `..` and doubled slashes inside it are not.
- Fleet.ProfileNames: Go's map iteration order is unspecified. The model picks keys in an arbitrary order, and its contract holds for every order.
- Fleet.PrintStatus: each row is a record (service, local port, status text). The line the logger prints from it is not modelled.
